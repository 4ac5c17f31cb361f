/** Following opaque start cursors until no page is left. */
module Pagination {
  import opened Options

  datatype Page<T> = Page(items: seq<T>, next: Option<string>)

  datatype Error = FetchFailed(reason: string) | Repeated(token: string)

  /** The server answers each cursor in one way; the first request carries no cursor. */
  type Server<!T> = Option<string> -> Result<Page<T>, string>

  /** The cursor of request n, when the chain gets that far. */
  function Cursor<T>(server: Server<T>, n: nat): Option<Option<string>>
  {
    if n == 0 then Some(None)
    else
      var prev := Cursor(server, n - 1);
      if prev.None? || server(prev.value).Err? || server(prev.value).value.next.None? then None
      else Some(server(prev.value).value.next)
  }

  /** Request n returns a page without a successor. */
  predicate EndsAt<T>(server: Server<T>, n: nat)
  {
    var c := Cursor(server, n);
    c.Some? && server(c.value).Ok? && server(c.value).value.next.None?
  }

  predicate FailsAt<T>(server: Server<T>, n: nat, reason: string)
  {
    var c := Cursor(server, n);
    c.Some? && server(c.value) == Err(reason)
  }

  /** The chain comes back to an earlier token. */
  predicate LoopsAt<T>(server: Server<T>, m: nat, n: nat)
  {
    0 < m < n && Cursor(server, n).Some? && Cursor(server, m) == Cursor(server, n)
  }

  /** The items of the first n pages, in order. */
  function Items<T>(server: Server<T>, n: nat): seq<T>
  {
    if n == 0 then []
    else
      var c := Cursor(server, n - 1);
      Items(server, n - 1) + if c.Some? && server(c.value).Ok? then server(c.value).value.items else []
  }

  /** Each page stands where it was fetched: after all earlier ones and before all later ones. */
  lemma {:induction false} PagesInOrder<T>(server: Server<T>, k: nat, n: nat)
    requires k < n && Cursor(server, k).Some? && server(Cursor(server, k).value).Ok?
    ensures Items(server, k) + server(Cursor(server, k).value).value.items <= Items(server, n)
    ensures |Items(server, 0)| == 0
  {
    if k < n - 1 {
      PagesInOrder(server, k, n - 1);
    }
  }

  lemma {:induction false} PrefixReached<T>(server: Server<T>, m: nat, n: nat)
    requires m <= n && Cursor(server, n).Some?
    ensures Cursor(server, m).Some?
  {
    if m < n { PrefixReached(server, m, n - 1); }
  }

  /** A request that is followed by another neither ends the chain nor fails. */
  lemma MiddleGoesOn<T>(server: Server<T>, m: nat, n: nat, reason: string)
    requires m < n && Cursor(server, n).Some?
    ensures !EndsAt(server, m) && !FailsAt(server, m, reason)
  {
    PrefixReached(server, m + 1, n);
  }

  /** Once the chain has looped it goes on for ever. */
  lemma {:induction false} LoopNeverEnds<T>(server: Server<T>, m: nat, n: nat, k: nat)
    requires LoopsAt(server, m, n)
    ensures Cursor(server, k).Some?
    ensures k >= n ==> Cursor(server, k) == Cursor(server, k - (n - m))
    decreases k
  {
    if k < n {
      PrefixReached(server, k, n);
    } else if k > n {
      LoopNeverEnds(server, m, n, k - 1);
      LoopNeverEnds(server, m, n, k - (n - m));
    }
  }

  /** The three endings exclude one another. */
  lemma EndIsFinal<T>(server: Server<T>, n: nat, k: nat, reason: string)
    requires EndsAt(server, n)
    ensures !FailsAt(server, k, reason) && (EndsAt(server, k) ==> k == n)
  {
    if k < n { MiddleGoesOn(server, k, n, reason); }
    if n < k && Cursor(server, k).Some? { MiddleGoesOn(server, n, k, reason); }
  }

  lemma FailureIsFinal<T>(server: Server<T>, n: nat, reason: string, k: nat, other: string)
    requires FailsAt(server, n, reason)
    ensures !EndsAt(server, k) && (FailsAt(server, k, other) ==> k == n)
  {
    if k < n { MiddleGoesOn(server, k, n, other); }
    if n < k && Cursor(server, k).Some? { MiddleGoesOn(server, n, k, reason); }
  }

  lemma LoopIsFinal<T>(server: Server<T>, m: nat, n: nat, k: nat, reason: string)
    requires LoopsAt(server, m, n)
    ensures !EndsAt(server, k) && !FailsAt(server, k, reason)
  {
    LoopNeverEnds(server, m, n, k + 1);
  }

  /**
   * The concatenation of all pages exactly when the chain ends, the server's error exactly when a request fails,
   * and a repeated-token error exactly when the chain is cyclic.
   */
  ghost predicate Verdict<T>(server: Server<T>, r: Result<seq<T>, Error>)
  {
    && (forall n: nat :: EndsAt(server, n) ==> r == Ok(Items(server, n + 1)))
    && (forall n: nat, reason :: FailsAt(server, n, reason) ==> r == Err(FetchFailed(reason)))
    && (forall m: nat, n: nat :: LoopsAt(server, m, n) ==> r.Err? && r.error.Repeated?)
    && (r.Ok? ==> exists n: nat :: EndsAt(server, n))
    && (r.Err? && r.error.FetchFailed? ==> exists n: nat :: FailsAt(server, n, r.error.reason))
    && (r.Err? && r.error.Repeated? ==>
          exists m: nat, n: nat :: LoopsAt(server, m, n) && Cursor(server, n) == Some(Some(r.error.token)))
  }

  lemma EndVerdict<T>(server: Server<T>, n: nat)
    requires EndsAt(server, n)
    ensures Verdict(server, Ok(Items(server, n + 1)))
  {
    forall k: nat, reason ensures !FailsAt(server, k, reason) { EndIsFinal(server, n, k, reason); }
    forall k: nat ensures EndsAt(server, k) ==> k == n { EndIsFinal(server, n, k, ""); }
    forall i: nat, j: nat ensures !LoopsAt(server, i, j) {
      if LoopsAt(server, i, j) { LoopIsFinal(server, i, j, n, ""); }
    }
  }

  lemma FailureVerdict<T>(server: Server<T>, n: nat, reason: string)
    requires FailsAt(server, n, reason)
    ensures Verdict(server, Err(FetchFailed(reason)))
  {
    forall k: nat, other ensures FailsAt(server, k, other) ==> k == n { FailureIsFinal(server, n, reason, k, other); }
    forall k: nat ensures !EndsAt(server, k) { FailureIsFinal(server, n, reason, k, reason); }
    forall i: nat, j: nat ensures !LoopsAt(server, i, j) {
      if LoopsAt(server, i, j) { LoopIsFinal(server, i, j, n, reason); }
    }
  }

  lemma LoopVerdict<T>(server: Server<T>, m: nat, n: nat, token: string)
    requires LoopsAt(server, m, n) && Cursor(server, n) == Some(Some(token))
    ensures Verdict<T>(server, Err(Repeated(token)))
  {
    forall k: nat, reason ensures !FailsAt(server, k, reason) { LoopIsFinal(server, m, n, k, reason); }
    forall k: nat ensures !EndsAt(server, k) { LoopIsFinal(server, m, n, k, ""); }
  }

  /** Terminates because every round sees a new token. */
  method Paginate<T>(server: Server<T>, ghost tokens: set<string>) returns (r: Result<seq<T>, Error>)
    requires forall c :: server(c).Ok? && server(c).value.next.Some? ==> server(c).value.next.value in tokens
    ensures Verdict(server, r)
  {
    var all: seq<T> := [];
    var seen: set<string> := {};
    var start: Option<string> := None;
    ghost var n: nat := 0;
    while true
      invariant Cursor(server, n) == Some(start)
      invariant all == Items(server, n)
      invariant AllSeen(server, n, seen)
      invariant seen <= tokens
      decreases |tokens - seen|
    {
      var page := server(start);
      if page.Err? {
        FailureVerdict(server, n, page.error);
        return Err(FetchFailed(page.error));
      }
      all := all + page.value.items;
      if page.value.next.None? {
        EndVerdict(server, n);
        return Ok(all);
      }
      var next := page.value.next.value;
      assert Cursor(server, n + 1) == Some(Some(next));
      if next in seen {
        assert SeenBy(server, n, next);
        ghost var m: nat :| 0 < m <= n && Cursor(server, m) == Some(Some(next));
        LoopVerdict(server, m, n + 1, next);
        return Err(Repeated(next));
      }
      SeenGrows(server, n, seen, next);
      Shrinks(tokens - (seen + {next}), tokens - seen);
      seen := seen + {next};
      start := Some(next);
      n := n + 1;
    }
  }

  ghost predicate SeenBy<T>(server: Server<T>, n: nat, token: string)
  {
    exists k: nat :: 0 < k <= n && Cursor(server, k) == Some(Some(token))
  }

  ghost predicate AllSeen<T>(server: Server<T>, n: nat, seen: set<string>)
  {
    forall t :: t in seen ==> SeenBy(server, n, t)
  }

  lemma SeenGrows<T>(server: Server<T>, n: nat, seen: set<string>, next: string)
    requires AllSeen(server, n, seen) && Cursor(server, n + 1) == Some(Some(next))
    ensures AllSeen(server, n + 1, seen + {next})
  {
    forall t | t in seen + {next} ensures SeenBy(server, n + 1, t) {
      if t in seen { assert SeenBy(server, n, t); }
    }
  }

  lemma Shrinks(a: set<string>, b: set<string>)
    requires a <= b && a != b
    ensures |a| < |b|
  {
    assert b == a + (b - a);
  }
}
