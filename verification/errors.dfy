/** The crate's error enum (`InstantJsonError`), its conversions and its display messages. */
module Errors {
  import opened Wrappers

  /** A rule of pest_meta's grammar-of-grammars (`pest_meta::parser::Rule`); its
      variants belong to pest_meta and are left opaque. */
  type MetaRule

  /** A diagnostic of pest (`pest::error::Error<R>`) over rule type `R`. Its
      contents (what was expected, where, and the line and column it points
      at) belong to pest and are left opaque: the crate only moves it around. */
  type PestError<R>

  /** A diagnostic about grammar source text (`PestError<Rule>`). */
  type GrammarError = PestError<MetaRule>

  /** A diagnostic of the VM about a document; the VM names its rules by
      string (`PestError<&str>`). */
  type InputError = PestError<string>

  /** The four ways an operation of the registry can fail. */
  datatype InstantJsonError =
    | GrammarParse(grammarError: GrammarError)
    | JsonParse(jsonError: InputError)
    | Multiple(errors: seq<GrammarError>)
    | NotFound

  /** The grammar diagnostics an error reports, in order. */
  function GrammarErrorsOf(e: InstantJsonError): seq<GrammarError>
  {
    match e
    case GrammarParse(d) => [d]
    case Multiple(ds) => ds
    case _ => []
  }

  /** The document diagnostic an error reports, if any. */
  function InputErrorOf(e: InstantJsonError): Option<InputError>
  {
    match e
    case JsonParse(d) => Some(d)
    case _ => None
  }

  /** True when `a` and `b` are built by the same variant, whatever their payloads. */
  predicate SameVariant(a: InstantJsonError, b: InstantJsonError)
  {
    || (a.GrammarParse? && b.GrammarParse?)
    || (a.JsonParse? && b.JsonParse?)
    || (a.Multiple? && b.Multiple?)
    || (a.NotFound? && b.NotFound?)
  }

  /** The `#[from]` conversion of one grammar diagnostic. */
  function FromGrammarError(d: GrammarError): (e: InstantJsonError)
    ensures e.GrammarParse?
    ensures GrammarErrorsOf(e) == [d]
    ensures InputErrorOf(e) == None
  {
    GrammarParse(d)
  }

  /** `From<Vec<PestError<Rule>>>`: a batch of grammar diagnostics. */
  function FromGrammarErrors(ds: seq<GrammarError>): (e: InstantJsonError)
    ensures e.Multiple?
    ensures GrammarErrorsOf(e) == ds
    ensures InputErrorOf(e) == None
  {
    Multiple(ds)
  }

  /** `From<PestError<&str>>`: a diagnostic of the VM about a document. */
  function FromInputError(d: InputError): (e: InstantJsonError)
    ensures e.JsonParse?
    ensures InputErrorOf(e) == Some(d)
    ensures GrammarErrorsOf(e) == []
  {
    JsonParse(d)
  }

  /** The `Display` text of an error, generated from its `#[error]` attribute. */
  function Message(e: InstantJsonError): (m: string)
    ensures e.GrammarParse? <==> m == "grammar parsing error"
    ensures e.JsonParse? <==> m == "json parsing error"
    ensures e.Multiple? <==> m == "multiple errors"
    ensures e.NotFound? <==> m == "not found error"
  {
    match e
    case GrammarParse(_) => "grammar parsing error"
    case JsonParse(_) => "json parsing error"
    case Multiple(_) => "multiple errors"
    case NotFound => "not found error"
  }

  /** Each conversion is injective: different diagnostics give different errors. */
  lemma ConversionsInjective(d1: GrammarError, d2: GrammarError,
                             ds1: seq<GrammarError>, ds2: seq<GrammarError>,
                             i1: InputError, i2: InputError)
    ensures FromGrammarError(d1) == FromGrammarError(d2) <==> d1 == d2
    ensures FromGrammarErrors(ds1) == FromGrammarErrors(ds2) <==> ds1 == ds2
    ensures FromInputError(i1) == FromInputError(i2) <==> i1 == i2
  {
  }

  /** The message depends on the variant only, and the four variants have four
      different messages. */
  lemma MessageIdentifiesVariant(a: InstantJsonError, b: InstantJsonError)
    ensures Message(a) == Message(b) <==> SameVariant(a, b)
  {
  }
}
