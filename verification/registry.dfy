/** The schema registry `InstantJson`: a map from schema name to compiled VM,
    changed only by a successful `compile`. */
module Registry {
  import opened Wrappers
  import opened Errors

  /** The pairs pest produces when it parses grammar source text. */
  type GrammarPairs
  /** One rule of a grammar's syntax tree (`pest_meta::ast::Rule`). */
  type AstRule
  /** One rule after pest_meta's optimizer (`OptimizedRule`). */
  type OptimizedRule
  /** A compiled grammar, ready to run (`pest_vm::Vm`). */
  type Vm
  /** The parse tree the VM returns for a document (`Pairs<&str>`). */
  type InputPairs

  /** The external pest functions the registry calls. Each field is an arbitrary
      function, so every property proved here holds whatever pest computes. */
  datatype Toolchain = Toolchain(
    /** `pest_meta::parser::parse(Rule::grammar_rule, _)` */
    parseGrammar: string -> Result<GrammarPairs, GrammarError>,
    /** `pest_meta::parser::consume_rules` */
    consumeRules: GrammarPairs -> Result<seq<AstRule>, seq<GrammarError>>,
    /** `pest_meta::optimizer::optimize` */
    optimize: seq<AstRule> -> seq<OptimizedRule>,
    /** `Vm::new` */
    newVm: seq<OptimizedRule> -> Vm,
    /** `Vm::parse(rule, input)` */
    runVm: (Vm, string, string) -> Result<InputPairs, InputError>)

  /** The rule every document is parsed from. */
  const EntryRule: string := "root"

  /** The registry: compiled VMs by schema name. */
  datatype InstantJson = InstantJson(vms: map<string, Vm>)

  /** Running a compiled VM on a document from the entry rule, with the VM's
      diagnostic converted into the crate's error (`vm.parse("root", _)?`). */
  function RunEntry(tc: Toolchain, vm: Vm, input: string): (r: Result<InputPairs, InstantJsonError>)
    ensures r.Success? <==> tc.runVm(vm, EntryRule, input).Success?
    ensures r.Success? ==> r.value == tc.runVm(vm, EntryRule, input).value
    ensures r.Failure? ==> r.error == JsonParse(tc.runVm(vm, EntryRule, input).error)
    ensures r.Failure? ==> InputErrorOf(r.error) == Some(tc.runVm(vm, EntryRule, input).error)
  {
    tc.runVm(vm, EntryRule, input).MapFailure(FromInputError)
  }

  /** The two-stage compilation `parse_pest`: the grammar source is parsed, its
      rules are consumed, and the consumed rules are optimized. */
  function ParsePest(tc: Toolchain, input: string): (r: Result<seq<OptimizedRule>, InstantJsonError>)
    ensures r.Failure? ==> r.error.GrammarParse? || r.error.Multiple?
    ensures r.Failure? ==> InputErrorOf(r.error) == None
    ensures tc.parseGrammar(input).Failure? ==>
              r.Failure? && r.error.GrammarParse? && GrammarErrorsOf(r.error) == [tc.parseGrammar(input).error]
    ensures tc.parseGrammar(input).Success? && tc.consumeRules(tc.parseGrammar(input).value).Failure? ==>
              r.Failure? && r.error.Multiple?
              && GrammarErrorsOf(r.error) == tc.consumeRules(tc.parseGrammar(input).value).error
    ensures r.Success? <==>
              tc.parseGrammar(input).Success? && tc.consumeRules(tc.parseGrammar(input).value).Success?
    ensures r.Success? ==> r.value == tc.optimize(tc.consumeRules(tc.parseGrammar(input).value).value)
  {
    match tc.parseGrammar(input)
    case Failure(d) => Failure(FromGrammarError(d))
    case Success(pairs) =>
      match tc.consumeRules(pairs)
      case Failure(ds) => Failure(FromGrammarErrors(ds))
      case Success(ast) => Success(tc.optimize(ast))
  }

  /** `InstantJson::new`: a registry with no schema. */
  function New(): (ij: InstantJson)
    ensures |ij.vms| == 0
  {
    InstantJson(map[])
  }

  /** `InstantJson::compile`: compiles `schema` and, only if that succeeds,
      stores the VM under `name`, replacing any VM already there. Returns the
      registry after the call together with the call's result. */
  function Compile(tc: Toolchain, ij: InstantJson, name: string, schema: string)
    : (r: (InstantJson, Result<(), InstantJsonError>))
    ensures r.1.Success? <==> ParsePest(tc, schema).Success?
    ensures r.1.Success? ==>
              name in r.0.vms && r.0.vms[name] == tc.newVm(ParsePest(tc, schema).value)
    ensures r.1.Success? ==> r.0.vms.Keys == ij.vms.Keys + {name}
    ensures r.1.Success? ==> |r.0.vms| == if name in ij.vms then |ij.vms| else |ij.vms| + 1
    ensures r.1.Failure? ==> r.0 == ij && r.1.error == ParsePest(tc, schema).error
    ensures forall n :: n != name ==> (n in r.0.vms <==> n in ij.vms)
    ensures forall n :: n != name && n in ij.vms ==> r.0.vms[n] == ij.vms[n]
  {
    match ParsePest(tc, schema)
    case Failure(e) => (ij, Failure(e))
    case Success(rules) => (InstantJson(ij.vms[name := tc.newVm(rules)]), Success(()))
  }

  /** `InstantJson::parse`: runs the VM registered under `name` on `input` from
      the entry rule. The registry is only read. */
  function Parse(tc: Toolchain, ij: InstantJson, name: string, input: string)
    : (r: Result<InputPairs, InstantJsonError>)
    ensures r == Failure(NotFound) <==> name !in ij.vms
    ensures r.Failure? ==> r.error.NotFound? || r.error.JsonParse?
    ensures name in ij.vms && tc.runVm(ij.vms[name], EntryRule, input).Success? ==>
              r == Success(tc.runVm(ij.vms[name], EntryRule, input).value)
    ensures name in ij.vms && tc.runVm(ij.vms[name], EntryRule, input).Failure? ==>
              r.Failure? && InputErrorOf(r.error) == Some(tc.runVm(ij.vms[name], EntryRule, input).error)
  {
    if name !in ij.vms then Failure(NotFound)
    else RunEntry(tc, ij.vms[name], input)
  }

  /** A new registry knows no schema: every parse reports `NotFound`. */
  lemma NewFindsNothing(tc: Toolchain, name: string, input: string)
    ensures Parse(tc, New(), name, input) == Failure(NotFound)
  {
  }

  /** After a successful compile of `name`, parsing under `name` runs the VM
      built from that schema; after a failed one, parsing under `name` behaves
      as it did before the call; parsing under any other name is unaffected. */
  lemma ParseAfterCompile(tc: Toolchain, ij: InstantJson, name: string, schema: string,
                          other: string, input: string)
    requires other != name
    ensures var (ij', res) := Compile(tc, ij, name, schema);
            && (res.Success? ==>
                  Parse(tc, ij', name, input) == RunEntry(tc, tc.newVm(ParsePest(tc, schema).value), input))
            && (res.Failure? ==> Parse(tc, ij', name, input) == Parse(tc, ij, name, input))
            && Parse(tc, ij', other, input) == Parse(tc, ij, other, input)
  {
  }

  /** Registering a name twice keeps only the later program: a second successful
      compile leaves the registry as if the first had never happened, and a
      failed second compile leaves the first program in place. */
  lemma CompileOverwrites(tc: Toolchain, ij: InstantJson, name: string, s1: string, s2: string)
    ensures var mid := Compile(tc, ij, name, s1).0;
            && (ParsePest(tc, s2).Success? ==> Compile(tc, mid, name, s2).0 == Compile(tc, ij, name, s2).0)
            && (ParsePest(tc, s2).Failure? ==> Compile(tc, mid, name, s2).0 == mid)
  {
  }

  /** Compiling the same schema under the same name twice has the effect of once. */
  lemma CompileIdempotent(tc: Toolchain, ij: InstantJson, name: string, schema: string)
    ensures var once := Compile(tc, ij, name, schema);
            Compile(tc, once.0, name, schema) == once
  {
    match ParsePest(tc, schema)
    case Failure(_) =>
    case Success(rules) =>
      var m := ij.vms[name := tc.newVm(rules)];
      assert m[name := tc.newVm(rules)] == m;
  }

  /** Compiles under different names do not interfere: their order does not matter. */
  lemma CompileCommutes(tc: Toolchain, ij: InstantJson, n1: string, s1: string, n2: string, s2: string)
    requires n1 != n2
    ensures Compile(tc, Compile(tc, ij, n1, s1).0, n2, s2).0
         == Compile(tc, Compile(tc, ij, n2, s2).0, n1, s1).0
  {
    match (ParsePest(tc, s1), ParsePest(tc, s2))
    case (Success(r1), Success(r2)) =>
      var v1, v2 := tc.newVm(r1), tc.newVm(r2);
      assert ij.vms[n1 := v1][n2 := v2] == ij.vms[n2 := v2][n1 := v1];
    case _ =>
  }

  /** The crate's tests: one successful compile into a new registry leaves one
      entry, and a parse under that name afterwards leaves it at one entry and
      returns the VM's own result. */
  lemma FirstCompileHasOneEntry(tc: Toolchain, name: string, schema: string, input: string)
    requires ParsePest(tc, schema).Success?
    ensures var ij := Compile(tc, New(), name, schema).0;
            && |ij.vms| == 1
            && ij.vms.Keys == {name}
            && Parse(tc, ij, name, input) == RunEntry(tc, tc.newVm(ParsePest(tc, schema).value), input)
  {
  }
}
