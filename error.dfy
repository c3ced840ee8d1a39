/**
 * The service's closed error taxonomy, the messages its errors display, and the
 * responder that turns a warp rejection into a `(message, status)` reply.
 */
module ErrorTaxonomy {
  import opened Wrappers
  import opened UsizeParse

  /** The four failures the core produces. */
  datatype Error =
    | ParseError(cause: ParseIntError)
    | MissingParameters
    | InvalidParameters
    | QuestionNotFound

  /** The fixed head of a parse error's message (the misspelling is the program's own). */
  const ParsePrefix: string := "Cannot parse paramter: "

  /** `Display::fmt` for `Error`. Only a parse error's message starts with `ParsePrefix`. */
  function Message(e: Error): (m: string)
    ensures e.ParseError? <==> ParsePrefix <= m
    ensures e.ParseError? ==> m[|ParsePrefix|..] == Describe(e.cause)
  {
    match e
    case ParseError(cause) => ParsePrefix + Describe(cause)
    case MissingParameters => "Missing parameter"
    case InvalidParameters =>
      var m := "Start must be smaller than end";
      assert m[0] != ParsePrefix[0];
      m
    case QuestionNotFound => "Question not found"
  }

  /** Distinct errors display distinct messages, so a reply body identifies its error. */
  lemma MessageInjective(a: Error, b: Error)
    requires Message(a) == Message(b)
    ensures a == b
  {
  }

  /**
   * One cause inside a warp rejection: a core `Error`, the CORS filter's `CorsForbidden`,
   * a `BodyDeserializeError` (each carrying the text it displays), or anything else warp rejects with.
   */
  datatype Cause =
    | Core(error: Error)
    | CorsForbidden(text: string)
    | BodyDeserialize(text: string)
    | Other

  /** The Rust type a cause has, the argument of `Rejection::find::<T>`. */
  datatype Kind = CoreKind | CorsKind | BodyKind | OtherKind

  function KindOf(c: Cause): Kind {
    match c
    case Core(_) => CoreKind
    case CorsForbidden(_) => CorsKind
    case BodyDeserialize(_) => BodyKind
    case Other => OtherKind
  }

  /** A rejection is the sequence of causes it combines; a plain "not found" rejection has none. */
  type Rejection = seq<Cause>

  ghost predicate Has(r: Rejection, k: Kind) {
    exists i :: 0 <= i < |r| && KindOf(r[i]) == k
  }

  /** `r.find::<T>()`: the first cause of kind `k`, if any. */
  function Find(r: Rejection, k: Kind): (found: Option<Cause>)
    ensures found.None? <==> !Has(r, k)
    ensures found.Some? ==> KindOf(found.value) == k
    ensures found.Some? ==> exists i :: 0 <= i < |r| && r[i] == found.value &&
                                       forall j :: 0 <= j < i ==> KindOf(r[j]) != k
  {
    if r == [] then None
    else if KindOf(r[0]) == k then Some(r[0])
    else
      var rest := Find(r[1..], k);
      assert forall i :: 0 < i < |r| ==> r[i] == r[1..][i - 1];
      rest
  }

  /** An HTTP reply: a text body and a status code. */
  datatype Reply = Reply(body: string, status: nat)

  const NOT_FOUND: nat := 404
  const FORBIDDEN: nat := 403
  const RANGE_NOT_SATISFIABLE: nat := 416
  const UNPROCESSABLE_ENTITY: nat := 422

  /** The error found first in `r`, if `r` holds one. */
  function FirstError(r: Rejection): (e: Option<Error>)
    ensures e.None? <==> !Has(r, CoreKind)
    ensures e.Some? ==> Find(r, CoreKind) == Some(Core(e.value))
  {
    match Find(r, CoreKind)
    case Some(Core(e)) => Some(e)
    case _ => None
  }

  /**
   * `return_error`: a core error takes precedence over a CORS refusal, which takes precedence
   * over a malformed body; anything else is an unknown route. It never rejects.
   */
  function ReturnError(r: Rejection): (res: Result<Reply, Rejection>)
    ensures res.Ok?
    ensures res.value.status in {NOT_FOUND, FORBIDDEN, RANGE_NOT_SATISFIABLE, UNPROCESSABLE_ENTITY}
    ensures Has(r, CoreKind) ==> res.value.body == Message(FirstError(r).value)
    ensures res.value.status == RANGE_NOT_SATISFIABLE <==>
              Has(r, CoreKind) && FirstError(r).value != QuestionNotFound
    ensures res.value.status == FORBIDDEN <==> !Has(r, CoreKind) && Has(r, CorsKind)
    ensures res.value.status == UNPROCESSABLE_ENTITY <==>
              !Has(r, CoreKind) && !Has(r, CorsKind) && Has(r, BodyKind)
    ensures res.value.status == NOT_FOUND <==>
              FirstError(r) == Some(QuestionNotFound) ||
              (!Has(r, CoreKind) && !Has(r, CorsKind) && !Has(r, BodyKind))
  {
    if Find(r, CoreKind).Some? then
      var error := Find(r, CoreKind).value.error;
      if error == QuestionNotFound then
        Ok(Reply("Question not found", NOT_FOUND))
      else
        Ok(Reply(Message(error), RANGE_NOT_SATISFIABLE))
    else if Find(r, CorsKind).Some? then
      Ok(Reply(Find(r, CorsKind).value.text, FORBIDDEN))
    else if Find(r, BodyKind).Some? then
      Ok(Reply(Find(r, BodyKind).value.text, UNPROCESSABLE_ENTITY))
    else
      Ok(Reply("Route not found", NOT_FOUND))
  }

  /** A missing question is a 404 whose body is "Question not found". */
  lemma QuestionNotFoundReply(r: Rejection)
    requires FirstError(r) == Some(QuestionNotFound)
    ensures ReturnError(r) == Ok(Reply("Question not found", NOT_FOUND))
  {
  }

  /** Any other core error is a 416 whose body is that error's message. */
  lemma OtherErrorReply(r: Rejection, e: Error)
    requires FirstError(r) == Some(e) && e != QuestionNotFound
    ensures ReturnError(r) == Ok(Reply(Message(e), RANGE_NOT_SATISFIABLE))
  {
  }

  /**
   * A core error anywhere in a rejection hides every CORS and body error beside it, and
   * the first core error alone decides the reply.
   */
  lemma CoreErrorFirst(r: Rejection, e: Error, s: Rejection)
    requires !Has(r, CoreKind)
    ensures ReturnError(r + [Core(e)] + s) == ReturnError([Core(e)])
    ensures ReturnError(r + [Core(e)] + s).value.status !in {FORBIDDEN, UNPROCESSABLE_ENTITY}
  {
    var t := r + [Core(e)] + s;
    assert t[|r|] == Core(e);
    forall j | 0 <= j < |r| ensures KindOf(t[j]) != CoreKind {
      assert t[j] == r[j];
    }
    assert Find(t, CoreKind) == Some(Core(e));
    assert Find([Core(e)], CoreKind) == Some(Core(e));
  }

  /** Without a core error, a CORS refusal is a 403 carrying the refusal's own text. */
  lemma CorsReply(r: Rejection, text: string)
    requires !Has(r, CoreKind) && Find(r, CorsKind) == Some(CorsForbidden(text))
    ensures ReturnError(r) == Ok(Reply(text, FORBIDDEN))
  {
  }

  /** Without a core error or a CORS refusal, a malformed body is a 422 carrying the decoder's text. */
  lemma BodyReply(r: Rejection, text: string)
    requires !Has(r, CoreKind) && !Has(r, CorsKind) && Find(r, BodyKind) == Some(BodyDeserialize(text))
    ensures ReturnError(r) == Ok(Reply(text, UNPROCESSABLE_ENTITY))
  {
  }

  /** A rejection with none of the three known causes is an unknown route. */
  lemma RouteNotFoundReply(r: Rejection)
    requires !Has(r, CoreKind) && !Has(r, CorsKind) && !Has(r, BodyKind)
    ensures ReturnError(r) == Ok(Reply("Route not found", NOT_FOUND))
  {
  }
}
