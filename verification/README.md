# instant_json core in Dafny

instant_json keeps a registry of named pest grammars ("schemas"). `compile`
turns grammar source text into a pest VM and stores it under a name. `parse`
looks a name up and runs its VM on a document from the entry rule `root`.
Failures are reported through the four-variant error enum `InstantJsonError`.
The crate also defines a JSON value tree, `JsonValue`, and a hand-written
serde `Serialize` implementation for it.

The model has four modules:

- `Wrappers` (wrappers.dfy) holds `Option` and `Result`.
- `Errors` (errors.dfy) models src/error.rs. It has the error enum, the three
  conversions into it and the display messages. pest's diagnostic type
  `pest::error::Error<R>` and pest_meta's rule enum are opaque types: the
  crate only wraps and passes them on, never looks inside.
- `Registry` (registry.dfy) models src/lib.rs. The registry is an immutable
  `map<string, Vm>` threaded through pure functions. `Compile` returns the
  registry after the call together with the call's result. `Parse` receives
  the registry and returns no registry, which models the source's `&self`:
  a lookup never changes the registry. The pest functions the registry calls
  (`parser::parse`, `consume_rules`, `optimize`, `Vm::new`, `Vm::parse`) are
  the fields of a `Toolchain` value. Their data types are opaque types. Every
  lemma quantifies over the toolchain, so each property holds whatever pest
  computes.
- `Json` (json.dfy) models src/json.rs. `Serialize` maps a `JsonValue` to the
  tree of calls it makes on a serde `Serializer` (`Ser`). The `f64` payload is
  kept as its opaque 64-bit pattern. `ValueOf` is an independent reading of
  such call trees back into values. It is used to prove that serialization
  loses nothing and produces exactly the JSON-shaped call trees.

Facts about the crate that shape the model:

- `parse` returns the VM's parse tree (`Pairs`) unchanged. No code in the
  crate turns that tree into a `JsonValue`.
- `JsonValue` has no array variant.
- src/lib.rs declares only `mod error;`, so json.rs is not part of the
  registry. The model keeps the two apart.

## Model

| member | source | states |
|---|---|---|
| Errors.FromGrammarError | src/error.rs:8-9 | The `#[from]` conversion of one grammar diagnostic gives `GrammarParse`, and that diagnostic can be read back from it, alone. |
| Errors.FromGrammarErrors | src/error.rs:20-25 | Converting a vector of grammar diagnostics gives `Multiple`, which reports exactly that vector, with the same order and length. |
| Errors.FromInputError | src/error.rs:28-31 | Converting a document diagnostic gives `JsonParse`, which wraps that same diagnostic and reports no grammar diagnostic. |
| Errors.ConversionsInjective | src/error.rs:8-31 | Each conversion maps different diagnostics to different errors, in both directions. |
| Errors.MessageIdentifiesVariant | src/error.rs:7-18 | Two errors have the same display message if and only if they are the same variant. The payload never affects the message. |
| Errors.Message | src/error.rs:7-17 | The display text is "grammar parsing error", "json parsing error", "multiple errors" or "not found error", and each text belongs to exactly one variant (both directions). |
| Registry.ParsePest | src/lib.rs:40-44 | Compilation succeeds if and only if both grammar stages succeed, and then yields the optimized rules. A grammar-syntax failure gives `GrammarParse` with that diagnostic. A `consume_rules` failure gives `Multiple` with its diagnostics. It never fails with `NotFound` or `JsonParse`. |
| Registry.New | src/lib.rs:20-24 | A new registry has no entries. |
| Registry.Compile | src/lib.rs:26-30 | On success, `name` maps to `Vm::new` of the compiled rules, the key set gains only `name`, and the entry count grows by one only for a new name. On failure, the registry is unchanged and the compilation error is returned. No other name's entry changes. |
| Registry.RunEntry | src/lib.rs:34 | Running a VM succeeds exactly when the VM succeeds at rule `root`, with the VM's own parse tree. A VM failure becomes `JsonParse` wrapping that same diagnostic. |
| Registry.Parse | src/lib.rs:32-35 | The result is `NotFound` if and only if the name is unregistered. For a registered name it is exactly the VM's result at rule `root`, with a VM error wrapped as `JsonParse`. No other error kind occurs. |
| Registry.NewFindsNothing | src/lib.rs:20-24 | Parsing under any name in a new registry reports `NotFound`. |
| Registry.ParseAfterCompile | src/lib.rs:26-35 | After a successful compile, parsing under that name runs the new VM. After a failed compile, parsing under that name behaves as before. Parsing under any other name is unaffected either way. |
| Registry.CompileOverwrites | src/lib.rs:27-28 | A second successful compile of a name leaves the registry as if the first had never happened. A failed second compile keeps the first program. |
| Registry.CompileIdempotent | src/lib.rs:26-30 | Compiling the same schema under the same name twice has the effect of compiling it once. |
| Registry.CompileCommutes | src/lib.rs:28 | Compiles under different names are independent: their order does not change the final registry. |
| Registry.FirstCompileHasOneEntry | src/lib.rs:50-65 | As the crate's tests assert, one successful compile into a new registry leaves exactly one entry, and a parse under that name returns the VM's own result. |
| Json.Serialize | src/json.rs:18-35 | Serialization is total and terminates. The output has the same kind as the input: string text, f64 and bool are carried unchanged, and null becomes `none`. An object becomes a map whose announced length is the object's size and whose keys are the object's keys. The whole output is JSON-shaped. |
| Json.SerializeEntries | src/json.rs:28-31 | Each object entry is emitted under its own key, with the value serialized recursively. |
| Json.SerializeEmitsNoSequence | src/json.rs:10-33 | No serialized value contains a sequence, at any depth. |
| Json.ValueOfSerialize | src/json.rs:21-33 | Reading a value's serialization back gives the original value. Serialization loses nothing. |
| Json.SerializeValueOf | src/json.rs:21-33 | Every call tree that has a reading is the serialization of that reading. |
| Json.SerializeInjective | src/json.rs:21-33 | Two values have the same serialization if and only if they are equal. |

## Left out

- What pest computes: parsing grammar text, turning the parsed grammar into rules, optimizing them, building a VM and running it. This is library code, so each step is an arbitrary function supplied in `Toolchain`, and nothing is proved about its output beyond what the crate does with it.
- The contents of pest's diagnostics (expected and unexpected rules, position or span, line and column, file path, source-line text). The crate never inspects them, so they are opaque.
- The `Deserialize` derive on `JsonValue` (src/json.rs:9). serde derives it in its default, externally tagged form (`{"JsonString": "..."}`), so it is not the inverse of the hand-written, untagged `Serialize`. `ValueOf` is an independent reading of the serializer's calls. It is not a model of that derive, and the round-trip lemmas say nothing about deserializing with the crate.
- Floating-point behaviour. A number is carried as an opaque 64-bit pattern and never computed with.
- Textual output. The model stops at the calls made on the serializer, so how a concrete serializer formats numbers or escapes strings is not modelled.
- Json.Serialize: errors raised by the concrete serializer and propagated by `?` (src/json.rs:27, 29) are not modelled. The call tree records what is asked of the serializer, not how the serializer answers.
- The order in which a `HashMap` is iterated, which Rust leaves unspecified. An object's serialized entries form a map, not a sequence.
- Rust lifetimes, and the thiserror `Display` code beyond the four fixed messages.
- The wasm_bindgen lines, which are commented out (src/lib.rs:6, src/json.rs:6).
- Whether json.rs compiles into the crate: it is modelled as written and kept apart from the registry.
