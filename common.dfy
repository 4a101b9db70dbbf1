/** Values shared by the pool, the engine binding and the supernode manager:
    optional values, the error codes the daemon passes to completion
    callbacks, and the record of one task posted onto the event loop. */
module Common {

  datatype Option<+T> = None | Some(value: T)

  /** The `boost::system::error_code` values the core produces or passes on.
      `SystemError` stands for any other code (a socket read error in the
      process variant) that is copied through unchanged. */
  datatype ErrorCode = Success | FailedSome | OperationAborted | SystemError(code: int)

  /** Identity of a caller-supplied completion callback (`call_back_func`). */
  type CallbackId = nat

  /** `io_svc().post(boost::bind(call_back, ec, url))`: the callback is queued
      on the event loop with these arguments; it is never run inline. */
  datatype Post = Post(callback: CallbackId, ec: ErrorCode, url: string)

  function CallbacksOf(ps: seq<Post>): (r: seq<CallbackId>)
    ensures |r| == |ps|
    ensures forall k :: 0 <= k < |ps| ==> r[k] == ps[k].callback
  {
    if ps == [] then [] else [ps[0].callback] + CallbacksOf(ps[1..])
  }

  lemma {:induction false} CallbacksOfAppend(a: seq<Post>, b: seq<Post>)
    ensures CallbacksOf(a + b) == CallbacksOf(a) + CallbacksOf(b)
  {
    var l, r := CallbacksOf(a + b), CallbacksOf(a) + CallbacksOf(b);
    forall k | 0 <= k < |l|
      ensures l[k] == r[k]
    {
      if k < |a| {
        assert (a + b)[k] == a[k];
      } else {
        assert (a + b)[k] == b[k - |a|];
      }
    }
    assert l == r;
  }

  /** The values held by the non-empty slots of a callback vector, in order. */
  function Somes<T(!new)>(s: seq<Option<T>>): (r: seq<T>)
    ensures |r| <= |s|
    ensures forall x :: x in r <==> Some(x) in s
  {
    if s == [] then []
    else if s[0].Some? then [s[0].value] + Somes(s[1..])
    else Somes(s[1..])
  }

  lemma {:induction false} SomesAppend<T(!new)>(a: seq<Option<T>>, b: seq<Option<T>>)
    ensures Somes(a + b) == Somes(a) + Somes(b)
  {
    if a == [] {
      assert a + b == b;
    } else {
      assert (a + b)[1..] == a[1..] + b;
      SomesAppend(a[1..], b);
    }
  }

  /** `erase(remove(begin, end, x), end)`: every x removed, order kept. */
  function RemoveAll<T(==,!new)>(s: seq<T>, x: T): (r: seq<T>)
    ensures |r| <= |s|
    ensures forall y :: y in r <==> y in s && y != x
  {
    if s == [] then [] else (if s[0] == x then [] else [s[0]]) + RemoveAll(s[1..], x)
  }

  /** The erase-remove idiom keeps every other element as often as it
      occurs, and drops every copy of x. */
  lemma {:induction false} RemoveAllCounts<T(!new)>(s: seq<T>, x: T)
    ensures multiset(RemoveAll(s, x)) == multiset(s)[x := 0]
  {
    if s != [] {
      RemoveAllCounts(s[1..], x);
      assert s == [s[0]] + s[1..];
    }
  }

  /** The erase-remove idiom keeps the order: removing from a concatenation
      is removing from each part. */
  lemma {:induction false} RemoveAllAppend<T(!new)>(a: seq<T>, b: seq<T>, x: T)
    ensures RemoveAll(a + b, x) == RemoveAll(a, x) + RemoveAll(b, x)
  {
    if a != [] {
      RemoveAllAppend(a[1..], b, x);
      assert (a + b)[1..] == a[1..] + b;
    } else {
      assert a + b == b;
    }
  }

  function OptSeq<T>(o: Option<T>): (r: seq<T>)
    ensures o.None? <==> r == []
    ensures o.Some? ==> r == [o.value]
  {
    match o
    case None => []
    case Some(x) => [x]
  }
}
