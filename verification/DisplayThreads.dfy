/**
 The live display: one thread fetches, another renders, and they share a state under a lock. What a
 thread does while it holds the lock is one step.
 */
module DisplayThreads {
  import opened Text

  /** What a fetch comes to: a payload, or the text of the exception, which may be empty. */
  datatype Fetch = Payload(text: string) | Error(message: string)

  /** What the renderer reads in one go. */
  datatype View = View(payload: Option<string>, error: Option<string>, busy: bool, count: nat)

  datatype Step = BeginFetch | EndFetch(fetch: Fetch) | Render

  /** The state that the two threads share. */
  class Shared {
    var payload: Option<string>
    var error: Option<string>
    var busy: bool
    var count: nat

    ghost function Now(): View
      reads this
    {
      View(payload, error, busy, count)
    }

    constructor ()
      ensures Now() == View(None, None, false, 0)
    {
      payload, error, busy, count := None, None, false, 0;
    }

    /** The fetch thread starts a fetch. */
    method Begin()
      modifies this
      ensures Now() == Next(old(Now()), BeginFetch)
    {
      busy := true;
    }

    /** The fetch thread stores what the fetch came to; a failed one leaves the payload. */
    method End(fetch: Fetch)
      modifies this
      ensures Now() == Next(old(Now()), EndFetch(fetch))
    {
      if fetch.Payload? {
        payload := Some(fetch.text);
      }
      error := if fetch.Error? then Some(fetch.message) else None;
      busy := false;
      count := count + 1;
    }

    /** The render thread reads the state. */
    method Read() returns (view: View)
      ensures view == Now()
    {
      view := View(payload, error, busy, count);
    }
  }

  function Next(v: View, s: Step): View {
    match s
    case BeginFetch => v.(busy := true)
    case EndFetch(Payload(text)) => View(Some(text), None, false, v.count + 1)
    case EndFetch(Error(message)) => View(v.payload, Some(message), false, v.count + 1)
    case Render => v
  }

  function After(ss: seq<Step>): View {
    if ss == [] then View(None, None, false, 0) else Next(After(ss[..|ss| - 1]), ss[|ss| - 1])
  }

  /** The fetches that were completed in a run, in order. */
  function Completed(ss: seq<Step>): seq<Fetch> {
    if ss == [] then []
    else
      var s := ss[|ss| - 1];
      Completed(ss[..|ss| - 1]) + if s.EndFetch? then [s.fetch] else []
  }

  /** The payload of the latest fetch that did not fail. */
  function LatestPayload(fs: seq<Fetch>): Option<string> {
    if fs == [] then None
    else if fs[|fs| - 1].Payload? then Some(fs[|fs| - 1].text)
    else LatestPayload(fs[..|fs| - 1])
  }

  /** The view of a run in which these fetches were completed. */
  predicate Shows(v: View, fs: seq<Fetch>) {
    && v.count == |fs|
    && v.payload == LatestPayload(fs)
    && v.error == if fs != [] && fs[|fs| - 1].Error? then Some(fs[|fs| - 1].message) else None
  }

  /** A fetch has begun, and none has ended since. */
  ghost predicate Fetching(ss: seq<Step>) {
    exists k :: 0 <= k < |ss| && ss[k].BeginFetch? && forall j :: k < j < |ss| ==> !ss[j].EndFetch?
  }

  lemma FetchingMore(ss: seq<Step>, s: Step)
    ensures Fetching(ss + [s]) <==> s.BeginFetch? || (Fetching(ss) && !s.EndFetch?)
  {
    var all := ss + [s];
    assert all[|ss|] == s;
    if s.BeginFetch? { assert Fetching(all); }
    if Fetching(ss) && !s.EndFetch? {
      var k :| 0 <= k < |ss| && ss[k].BeginFetch? && forall j :: k < j < |ss| ==> !ss[j].EndFetch?;
      assert all[k].BeginFetch? && forall j :: k < j < |ss| ==> all[j] == ss[j];
    }
    if Fetching(all) && !s.BeginFetch? {
      var k :| 0 <= k < |all| && all[k].BeginFetch? && forall j :: k < j < |all| ==> !all[j].EndFetch?;
      assert ss[k].BeginFetch? && forall j :: k < j < |ss| ==> all[j] == ss[j];
    }
  }

  /** The display says that it is fetching exactly from the beginning of a fetch to the end of one. */
  lemma {:induction false} BusyWhileFetching(ss: seq<Step>)
    ensures After(ss).busy <==> Fetching(ss)
  {
    hide Fetching;
    if ss == [] {
      NoneFetching();
    } else {
      var less := ss[..|ss| - 1];
      BusyWhileFetching(less);
      FetchingMore(less, ss[|ss| - 1]);
      assert less + [ss[|ss| - 1]] == ss;
    }
  }

  lemma NoneFetching()
    ensures !Fetching([])
  {
  }

  /** However the two threads take turns, what is shown is what the fetches completed so far came to:
      their number, the latest payload, and an error exactly if the latest one failed. */
  lemma {:induction false} ShowsCompleted(ss: seq<Step>)
    ensures Shows(After(ss), Completed(ss))
  {
    if ss != [] {
      var less, s := ss[..|ss| - 1], ss[|ss| - 1];
      ShowsCompleted(less);
      if s.EndFetch? {
        var fs := Completed(less);
        assert (fs + [s.fetch])[..|fs|] == fs;
      } else {
        assert Completed(less) + [] == Completed(less);
      }
    }
  }

  /** The fetches seen by one rendering are the first of those seen by a later one; so the counts shown
      never decrease. */
  lemma {:induction false} LaterSeesMore(ss: seq<Step>, n: nat)
    requires n <= |ss|
    ensures Completed(ss[..n]) <= Completed(ss) && After(ss[..n]).count <= After(ss).count
  {
    if n == |ss| {
      assert ss[..n] == ss;
    } else {
      var less := ss[..|ss| - 1];
      assert less[..n] == ss[..n];
      LaterSeesMore(less, n);
    }
  }
}
