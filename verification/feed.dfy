/**
 The bounded newest-first feed `[x, ...prev].slice(0, cap)` that both the notification feed
 in components/Layout.tsx and the live feed in components/Dashboard.tsx keep, and that the
 service's threat buffer matches while it is within its cap.
 */
module Feed {
  import opened Types

  /** `s.slice(0, n)`: the first `n` items of `s`, or all of `s` when it is shorter. */
  function Take<T>(s: seq<T>, n: nat): (r: seq<T>)
    ensures |r| == Min(|s|, n)
    ensures r == s[..|r|]
  {
    if |s| <= n then s else s[..n]
  }

  /** `[x, ...prev].slice(0, cap)`. */
  function Push<T>(x: T, prev: seq<T>, cap: nat): (r: seq<T>)
    ensures |r| == Min(|prev| + 1, cap)
    ensures cap > 0 ==> r[0] == x && r[1..] == prev[..|r| - 1]
  {
    Take([x] + prev, cap)
  }

  /** The feed after `xs` arrive one after another, `xs[0]` first. */
  function PushAll<T>(prev: seq<T>, xs: seq<T>, cap: nat): seq<T>
    decreases |xs|
  {
    if xs == [] then prev else PushAll(Push(xs[0], prev, cap), xs[1..], cap)
  }

  function Reverse<T>(s: seq<T>): (r: seq<T>)
    ensures |r| == |s|
  {
    if s == [] then [] else Reverse(s[1..]) + [s[0]]
  }

  /** Truncating the tail first does not change what the head keeps. */
  lemma TakeOfTakenTail<T>(a: seq<T>, b: seq<T>, n: nat)
    ensures Take(a + Take(b, n), n) == Take(a + b, n)
  {
    var l := Take(a + b, n);
    var r := Take(a + Take(b, n), n);
    assert |l| == |r|;
    forall i | 0 <= i < |l|
      ensures l[i] == r[i]
    {
      if i >= |a| {
        assert l[i] == b[i - |a|];
        assert r[i] == Take(b, n)[i - |a|];
      }
    }
  }

  /**
   Eviction is oldest first: after any arrivals the feed holds the newest `cap` items of
   all arrivals (newest first) followed by the earlier feed.
   */
  lemma {:induction false} PushAllKeepsNewest<T>(prev: seq<T>, xs: seq<T>, cap: nat)
    requires |prev| <= cap
    ensures PushAll(prev, xs, cap) == Take(Reverse(xs) + prev, cap)
    decreases |xs|
  {
    if xs == [] {
      assert Reverse(xs) + prev == prev;
    } else {
      var rest := xs[1..];
      PushAllKeepsNewest(Push(xs[0], prev, cap), rest, cap);
      TakeOfTakenTail(Reverse(rest), [xs[0]] + prev, cap);
      assert Reverse(rest) + ([xs[0]] + prev) == Reverse(xs) + prev by {
        assert Reverse(xs) == Reverse(rest) + [xs[0]];
      }
    }
  }

  /** Arrivals fill the feed up to its cap and the newest arrival is at its head. */
  lemma {:induction false} PushAllBounded<T>(prev: seq<T>, xs: seq<T>, cap: nat)
    requires |prev| <= cap
    ensures |PushAll(prev, xs, cap)| == Min(|prev| + |xs|, cap)
    ensures |xs| > 0 && cap > 0 ==> PushAll(prev, xs, cap)[0] == xs[|xs| - 1]
  {
    PushAllKeepsNewest(prev, xs, cap);
    if |xs| > 0 && cap > 0 {
      ReverseHead(xs);
      assert (Reverse(xs) + prev)[0] == xs[|xs| - 1];
    }
  }

  lemma {:induction false} ReverseHead<T>(s: seq<T>)
    requires |s| > 0
    ensures Reverse(s)[0] == s[|s| - 1]
    decreases |s|
  {
    if |s| > 1 {
      ReverseHead(s[1..]);
    }
  }
}
