/**
 * The pagination resolver: turns the `start` and `end` query parameters into a validated
 * range and clamps that range to the collection being listed.
 */
module PaginationResolver {
  import opened Wrappers
  import opened UsizeParse
  import opened ErrorTaxonomy

  /** A half-open index range `[start, end)` over a listing. */
  datatype Pagination = Pagination(start: nat, end: nat)

  /** The constructor's own failure, before it is mapped into the taxonomy. */
  datatype InvalidPagination = InvalidPagination

  /** `Pagination::new`: refuses a range that starts after it ends. */
  function NewPagination(start: nat, end: nat): (r: Result<Pagination, InvalidPagination>)
    ensures r.Err? <==> start > end
    ensures r.Ok? ==> r.value.start == start && r.value.end == end
  {
    if start > end then Err(InvalidPagination) else Ok(Pagination(start, end))
  }

  /** The query-parameter map the router hands over. */
  type Params = map<string, string>

  /**
   * `extract_pagination`: both keys must be present, then `start` must parse, then `end`,
   * then the two must be in order; the first check that fails decides the error.
   */
  function ExtractPagination(params: Params): (r: Result<Pagination, Error>)
    ensures "start" !in params || "end" !in params ==> r == Err(MissingParameters)
    ensures "start" in params && "end" in params && ParseUsize(params["start"]).Err? ==>
              r == Err(ParseError(ParseUsize(params["start"]).error))
    ensures "start" in params && "end" in params && ParseUsize(params["start"]).Ok? &&
            ParseUsize(params["end"]).Err? ==>
              r == Err(ParseError(ParseUsize(params["end"]).error))
    ensures "start" in params && "end" in params &&
            ParseUsize(params["start"]).Ok? && ParseUsize(params["end"]).Ok? &&
            ParseUsize(params["start"]).value > ParseUsize(params["end"]).value ==>
              r == Err(InvalidParameters)
    ensures r.Ok? ==> r.value.start <= r.value.end
    ensures r.Ok? ==>
              "start" in params && "end" in params &&
              ParseUsize(params["start"]) == Ok(r.value.start) &&
              ParseUsize(params["end"]) == Ok(r.value.end)
    ensures "start" in params && "end" in params &&
            ParseUsize(params["start"]).Ok? && ParseUsize(params["end"]).Ok? &&
            ParseUsize(params["start"]).value <= ParseUsize(params["end"]).value ==>
              r == Ok(Pagination(ParseUsize(params["start"]).value, ParseUsize(params["end"]).value))
    ensures r != Err(QuestionNotFound)
  {
    if "start" in params && "end" in params then
      match ParseUsize(params["start"])
      case Err(e) => Err(ParseError(e))
      case Ok(start) =>
        match ParseUsize(params["end"])
        case Err(e) => Err(ParseError(e))
        case Ok(end) =>
          match NewPagination(start, end)
          case Err(_) => Err(InvalidParameters)
          case Ok(p) => Ok(p)
    else
      Err(MissingParameters)
  }

  /** `limit_pagination`: lowers `end` to the listing's length and leaves `start` alone. */
  function LimitPagination<T>(p: Pagination, elements: seq<T>): (r: Pagination)
    ensures r.start == p.start
    ensures r.end <= |elements| && r.end <= p.end
    ensures r.end == p.end || r.end == |elements|
  {
    if p.end > |elements| then Pagination(p.start, |elements|) else p
  }

  /** Clamping changes nothing when the range already ends inside the listing. */
  lemma LimitIdentity<T>(p: Pagination, elements: seq<T>)
    requires p.end <= |elements|
    ensures LimitPagination(p, elements) == p
  {
  }

  /** Clamping twice is clamping once. */
  lemma LimitIdempotent<T>(p: Pagination, elements: seq<T>)
    ensures LimitPagination(LimitPagination(p, elements), elements) == LimitPagination(p, elements)
  {
  }

  /**
   * A valid range stays ordered after clamping exactly when it starts inside the listing:
   * nothing guards `start`, so a range starting past the end comes out with `start > end`.
   */
  lemma LimitKeepsOrderIff<T>(p: Pagination, elements: seq<T>)
    requires p.start <= p.end
    ensures LimitPagination(p, elements).start <= LimitPagination(p, elements).end <==>
            p.start <= |elements|
  {
  }

  /** A concrete instance: `start=2&end=5` over a one-element listing clamps to `[2, 1)`. */
  lemma LimitPastEnd()
    ensures ExtractPagination(map["start" := "2", "end" := "5"]) == Ok(Pagination(2, 5))
    ensures LimitPagination(Pagination(2, 5), [0]) == Pagination(2, 1)
  {
  }

  /**
   * Whatever the resolver rejects ends up as a 416 whose body is the error's message, also when
   * the rejection reaches the responder combined with other routes' causes before and after it.
   */
  lemma RejectedPaginationIs416(params: Params, r: Rejection, s: Rejection)
    requires ExtractPagination(params).Err? && !Has(r, CoreKind)
    ensures ReturnError(r + [Core(ExtractPagination(params).error)] + s) ==
            Ok(Reply(Message(ExtractPagination(params).error), RANGE_NOT_SATISFIABLE))
  {
    CoreErrorFirst(r, ExtractPagination(params).error, s);
  }

  /** Every number written in decimal is accepted as a bound, with or without a '+'. */
  lemma ExtractShown(start: nat, end: nat, plus: bool)
    requires start <= end
    ensures var s := if plus then "+" + Show(start) else Show(start);
            ExtractPagination(map["start" := s, "end" := Show(end)]) == Ok(Pagination(start, end))
  {
    if plus { ParsePlusShow(start); } else { ParseShow(start); }
    ParseShow(end);
  }

  /**
   * Four refused queries: `start=2&end=1` is out of order; `start=x&end=` reports the bad `start`
   * although `end` is empty too; a lone `start` lacks `end`; `start=0&end=` reports the empty `end`.
   */
  lemma ExtractExamples()
    ensures ExtractPagination(map["start" := "2", "end" := "1"]) == Err(InvalidParameters)
    ensures ExtractPagination(map["start" := "x", "end" := ""]) ==
            Err(ParseError(ParseIntError(InvalidDigit)))
    ensures ExtractPagination(map["start" := "0"]) == Err(MissingParameters)
    ensures ExtractPagination(map["start" := "0", "end" := ""]) == Err(ParseError(ParseIntError(Empty)))
  {
  }
}
