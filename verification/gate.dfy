/**
  Argument handling of the `run_query` tool: extracting the query string and
  the `unsafe` switch from the call's loosely typed argument map, and the
  lexical safety gate that refuses write-like queries unless `unsafe` is set.
 */
module Gate {
  import opened Wrappers
  import opened Text

  /** A tool-call argument as it arrives from the protocol host: any JSON value. */
  datatype Arg = ArgString(s: string) | ArgBool(b: bool) | ArgNumber(n: int) | ArgNull | ArgOther

  type Args = map<string, Arg>

  const QueryRequired: string := "Query parameter is required"
  const UnsafeDetected: string := "Potentially unsafe query detected. Set 'unsafe' to true to execute."

  /** The keyword-plus-space fragments the gate looks for, in the order tried. */
  const UnsafeKeywords: seq<string> := ["delete ", "remove ", "drop ", "create ", "merge ", "set "]

  /** The `query` argument, when present and a string. */
  function QueryArg(args: Args): (q: Option<string>)
    ensures q.Some? <==> "query" in args && args["query"].ArgString?
    ensures q.Some? ==> q.value == args["query"].s
  {
    if "query" in args && args["query"].ArgString? then Some(args["query"].s) else None
  }

  /** The `unsafe` switch: the boolean supplied, or false when it is absent
      or not a boolean. */
  function UnsafeArg(args: Args): (u: bool)
    ensures u <==> "unsafe" in args && args["unsafe"] == ArgBool(true)
  {
    if "unsafe" in args && args["unsafe"].ArgBool? then args["unsafe"].b else false
  }

  /** The gate's verdict on a query: its lower-cased text contains one of
      the unsafe fragments. A query shorter than the shortest fragment,
      `set `, is never blocked. */
  predicate Blocked(query: string)
    ensures |query| < 4 ==> !Blocked(query)
  {
    ContainsAny(Lower(query), UnsafeKeywords)
  }

  /** Blocking, stated by position: some window of the lower-cased query
      equals one of the six fragments. */
  lemma BlockedIff(query: string)
    ensures Blocked(query) <==>
      exists k, i :: 0 <= k < |UnsafeKeywords| && OccursAt(Lower(query), UnsafeKeywords[k], i)
  {
    var lq := Lower(query);
    ContainsAnyIff(lq, UnsafeKeywords);
    forall k | 0 <= k < |UnsafeKeywords|
      ensures Contains(lq, UnsafeKeywords[k]) <==> exists i :: OccursAt(lq, UnsafeKeywords[k], i)
    {
      ContainsIff(lq, UnsafeKeywords[k]);
    }
  }

  /** The gate ignores letter case: a query is blocked exactly when its
      lower-cased form is. */
  lemma BlockedCaseInsensitive(query: string)
    ensures Blocked(query) <==> Blocked(Lower(query))
  {
    LowerIdempotent(query);
  }

  /** A keyword written in any mix of cases and followed by a space, anywhere
      in the query, blocks it. */
  lemma {:induction false} AnyCaseKeywordBlocks(query: string, k: nat, i: nat)
    requires k < |UnsafeKeywords|
    requires i + |UnsafeKeywords[k]| <= |query|
    requires Lower(query[i..i + |UnsafeKeywords[k]|]) == UnsafeKeywords[k]
    ensures Blocked(query)
  {
    LowerSlice(query, i, i + |UnsafeKeywords[k]|);
    assert OccursAt(Lower(query), UnsafeKeywords[k], i);
    BlockedIff(query);
  }

  /** Surrounding a blocked query with more text never unblocks it. */
  lemma {:induction false} BlockedInContext(p: string, query: string, t: string)
    requires Blocked(query)
    ensures Blocked(p + query + t)
  {
    LowerAppend(p, query);
    LowerAppend(p + query, t);
    var lq := Lower(query);
    ContainsAnyIff(lq, UnsafeKeywords);
    var k :| 0 <= k < |UnsafeKeywords| && Contains(lq, UnsafeKeywords[k]);
    ContainsInContext(Lower(p), lq, Lower(t), UnsafeKeywords[k]);
    ContainsAnyIff(Lower(p + query + t), UnsafeKeywords);
  }

  /** Parameter check and safety gate of `run_query`. On success the query
      to execute is returned exactly as supplied; on failure the tool-level
      error message is returned and nothing is executed. */
  function CheckQuery(args: Args): (r: Result<string>)
    ensures QueryArg(args).None? ==> r == Err(QueryRequired)
    ensures QueryArg(args).Some? && !UnsafeArg(args) && Blocked(QueryArg(args).value) ==> r == Err(UnsafeDetected)
    ensures r.Ok? <==> QueryArg(args).Some? && (UnsafeArg(args) || !Blocked(QueryArg(args).value))
    ensures r.Ok? ==> "query" in args && r.value == args["query"].s
  {
    match QueryArg(args)
    case None => Err(QueryRequired)
    case Some(query) =>
      if !UnsafeArg(args) && Blocked(query) then Err(UnsafeDetected) else Ok(query)
  }

  /** With `unsafe` set to true, every string query passes the gate
      unmodified, whatever its text. */
  lemma UnsafeNeverBlocks(query: string, rest: Args)
    ensures CheckQuery(rest["query" := ArgString(query)]["unsafe" := ArgBool(true)]) == Ok(query)
  {
  }

  /** With `unsafe` absent or not the boolean true, a string query passes
      exactly when the gate does not block it. */
  lemma SafeModeGate(query: string, rest: Args)
    requires "unsafe" !in rest || rest["unsafe"] != ArgBool(true)
    ensures CheckQuery(rest["query" := ArgString(query)]).Ok? <==> !Blocked(query)
  {
  }

  /** The gate is lexical, not a parser: every fragment ends in a space, so
      a query with no space character is never blocked, whatever keywords
      it contains (separated by tabs or newlines, say). */
  lemma NoSpaceNeverBlocked(query: string)
    requires forall j :: 0 <= j < |query| ==> query[j] != ' '
    ensures !Blocked(query)
  {
    var lq := Lower(query);
    BlockedIff(query);
    forall k, i | 0 <= k < |UnsafeKeywords|
      ensures !OccursAt(lq, UnsafeKeywords[k], i)
    {
      var kw := UnsafeKeywords[k];
      assert kw[|kw| - 1] == ' ';
      if 0 <= i && i + |kw| <= |lq| {
        assert lq[i + |kw| - 1] == LowerChar(query[i + |kw| - 1]) != ' ';
        assert lq[i..i + |kw|][|kw| - 1] == lq[i + |kw| - 1];
      }
      if OccursAt(lq, kw, i) {
        assert false;
      }
    }
  }

  /** An instance: a keyword followed by a tab rather than a space slips
      through. */
  lemma TabAfterKeywordPasses()
    ensures !Blocked("DROP\tx")
  {
    NoSpaceNeverBlocked("DROP\tx");
  }
}
