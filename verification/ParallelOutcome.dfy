/**
 * What a ParallelChannel call plans before its sub calls start and what it reports after the
 * rendezvous (brpc/brpc/parallel_channel.cpp).
 */
module ParallelOutcome {
  import opened Options
  import R = ParallelRendezvous

  const EPERM := 1
  const ENOMEM := 12
  const EINVAL := 22
  const ECANCELED := 125
  const EREQUEST := 1003
  const ETOOMANYFAILS := 1005
  const ERESPONSE := 2002

  /** Outcome of merging one successful sub response; Threw is an exception of MergeFrom. */
  datatype Merge = Merged | Fail | FailAll | Threw

  datatype SubResult = SubResult(errorCode: int, merge: Merge)

  // ---- what the parties did, counted over the first k sub calls ----

  function FailedCalls(subs: seq<SubResult>, k: nat): nat
    requires k <= |subs|
  {
    if k == 0 then 0 else FailedCalls(subs, k - 1) + (if subs[k - 1].errorCode != 0 then 1 else 0)
  }

  function FailMerges(subs: seq<SubResult>, k: nat): nat
    requires k <= |subs|
  {
    if k == 0 then 0
    else FailMerges(subs, k - 1) + (if subs[k - 1].errorCode == 0 && subs[k - 1].merge.Fail? then 1 else 0)
  }

  /** A merge that reports FAIL_ALL or throws fails the whole call. */
  predicate Poisons(r: SubResult) { r.errorCode == 0 && (r.merge.FailAll? || r.merge.Threw?) }

  predicate Poisoned(subs: seq<SubResult>) { exists i :: 0 <= i < |subs| && Poisons(subs[i]) }

  /** Error codes that tell why sub calls failed: cancellations are consequences, not causes. */
  function Causes(subs: seq<SubResult>): set<int> {
    set i | 0 <= i < |subs| && subs[i].errorCode != 0 && subs[i].errorCode != ECANCELED :: subs[i].errorCode
  }

  /** The single code that stands for all causes. */
  ghost predicate Unified(causes: set<int>, code: int) {
    && (causes == {} ==> code == ECANCELED)
    && (forall c :: causes == {c} ==> code == c)
    && ((exists c, d :: c in causes && d in causes && c != d) ==> code == ETOOMANYFAILS)
  }

  /** Indexes below k whose response was merged. */
  function MergedBelow(subs: seq<SubResult>, k: nat): seq<nat>
    requires k <= |subs|
  {
    if k == 0 then []
    else MergedBelow(subs, k - 1) + (if subs[k - 1].errorCode == 0 && subs[k - 1].merge.Merged? then [k - 1] else [])
  }

  predicate Throws(r: SubResult) { r.errorCode == 0 && r.merge.Threw? }

  /** Where the merging loop is left: at the first exception, or at the end. */
  function FirstThrow(subs: seq<SubResult>): (k: nat)
    ensures k <= |subs|
  {
    ThrowFrom(subs, 0)
  }

  function ThrowFrom(subs: seq<SubResult>, i: nat): (k: nat)
    requires i <= |subs|
    ensures i <= k <= |subs|
    decreases |subs| - i
  {
    if i == |subs| || Throws(subs[i]) then i else ThrowFrom(subs, i + 1)
  }

  lemma {:induction false} NoThrow(subs: seq<SubResult>, i: nat)
    requires i <= |subs| && !Poisoned(subs)
    ensures ThrowFrom(subs, i) == |subs|
    decreases |subs| - i
  {
    if i < |subs| {
      assert !Poisons(subs[i]);
      NoThrow(subs, i + 1);
    }
  }

  /** The loop that merges responses of successful sub calls. */
  method MergeResponses(subs: seq<SubResult>, failLimit: nat, preset: int)
    returns (nfailed: nat, error: int, merged: seq<nat>)
    requires 1 <= failLimit <= |subs|
    ensures nfailed < failLimit <==>
            FailedCalls(subs, |subs|) + FailMerges(subs, |subs|) < failLimit && !Poisoned(subs)
    ensures error == if FailedCalls(subs, |subs|) < failLimit && Poisoned(subs) then ERESPONSE else preset
    ensures merged == if FailedCalls(subs, |subs|) < failLimit then MergedBelow(subs, FirstThrow(subs)) else []
  {
    var ndone := |subs|;
    nfailed := FailedCalls(subs, ndone);
    error, merged := preset, [];
    if nfailed < failLimit {
      ghost var poisoned := false;
      var i := 0;
      while i < ndone
        invariant i <= ndone
        invariant poisoned <==> exists j :: 0 <= j < i && Poisons(subs[j])
        invariant poisoned ==> nfailed >= ndone && error == ERESPONSE
        invariant !poisoned ==> nfailed == FailedCalls(subs, ndone) + FailMerges(subs, i) && error == preset
        invariant merged == MergedBelow(subs, i) && FirstThrow(subs) == ThrowFrom(subs, i)
      {
        if subs[i].errorCode == 0 {
          match subs[i].merge
          case Merged => merged := merged + [i];
          case Fail => nfailed := nfailed + 1;
          case FailAll =>
            nfailed, error := ndone, ERESPONSE;
            poisoned := true;
            assert Poisons(subs[i]);
          case Threw =>
            nfailed, error := ndone, ERESPONSE;
            poisoned := true;
            assert Poisons(subs[i]);
            break;
        }
        i := i + 1;
      }
    }
  }

  /** The loop that picks one code for a failed call. */
  method UnifyErrors(subs: seq<SubResult>) returns (unified: int)
    ensures Unified(Causes(subs), unified) && unified != 0
  {
    unified := ECANCELED;
    var i := 0;
    while i < |subs|
      invariant i <= |subs|
      invariant unified == ECANCELED ==> forall j :: 0 <= j < i ==> subs[j].errorCode == 0 || subs[j].errorCode == ECANCELED
      invariant unified != ECANCELED ==> unified in Causes(subs)
      invariant unified != ECANCELED ==>
                forall j :: 0 <= j < i ==> subs[j].errorCode == 0 || subs[j].errorCode == ECANCELED || subs[j].errorCode == unified
    {
      var ec := subs[i].errorCode;
      if ec != 0 && ec != ECANCELED {
        assert ec in Causes(subs);
        if unified == ECANCELED {
          unified := ec;
        } else if unified != ec {
          unified := ETOOMANYFAILS;
          return;
        }
      }
      i := i + 1;
    }
  }

  /**
   * OnComplete: the call succeeds iff failed sub calls plus FAIL merges stay below fail_limit
   * and no merge poisons it, whatever error the main call had; otherwise a merge error or the
   * error already set wins over the unified code of the sub calls.
   */
  method OnComplete(subs: seq<SubResult>, failLimit: nat, preset: int) returns (error: int, merged: seq<nat>)
    requires 1 <= failLimit <= |subs|
    ensures error == 0 <==>
            FailedCalls(subs, |subs|) + FailMerges(subs, |subs|) < failLimit && !Poisoned(subs)
    ensures error == 0 ==> merged == MergedBelow(subs, |subs|)
    ensures FailedCalls(subs, |subs|) < failLimit && Poisoned(subs) ==> error == ERESPONSE
    ensures !(FailedCalls(subs, |subs|) < failLimit && Poisoned(subs)) && error != 0 && preset != 0 ==> error == preset
    ensures !(FailedCalls(subs, |subs|) < failLimit && Poisoned(subs)) && error != 0 && preset == 0 ==>
            Unified(Causes(subs), error)
  {
    var nfailed;
    nfailed, error, merged := MergeResponses(subs, failLimit, preset);
    if !Poisoned(subs) { NoThrow(subs, 0); }
    if nfailed >= failLimit {
      if error == 0 {
        error := UnifyErrors(subs);
      }
    } else {
      error := 0;
    }
  }

  lemma {:induction false} FailedPrefix(subs: seq<SubResult>, pcs: seq<R.SubPc>, k: nat)
    requires k <= |subs| == |pcs|
    requires forall i :: 0 <= i < |subs| ==> (subs[i].errorCode != 0 <==> R.Failed(pcs[i]) == 1)
    ensures FailedCalls(subs, k) == R.Sum(pcs[..k], R.Failed)
  {
    if k > 0 {
      FailedPrefix(subs, pcs, k - 1);
      R.SumSplit(pcs[..k], R.Failed, k - 1);
      assert pcs[..k][..k - 1] == pcs[..k - 1];
      assert pcs[..k][k..] == [];
    }
  }

  /**
   * The count OnComplete starts from is the rendezvous' _current_fail: in every run, once a
   * party completes, that counter equals the number of sub calls with an error code.
   */
  lemma {:induction false} CounterIsFailedCalls(n: nat, failLimit: nat, steps: seq<R.Step>, t: R.State, subs: seq<SubResult>)
    requires 1 <= failLimit <= n < R.MSB && R.Runs(R.Init(n, failLimit), steps, t) && t.sh.completions == 1
    requires |subs| == |t.subs| && forall i :: 0 <= i < |subs| ==> (subs[i].errorCode != 0 <==> R.Failed(t.subs[i]) == 1)
    ensures |subs| == n && t.sh.fails == FailedCalls(subs, n)
  {
    R.Reached(n, failLimit, steps, t);
    FailedPrefix(subs, t.subs, n);
    assert t.subs[..n] == t.subs;
  }

  // ---- planning the sub calls ----

  /** What comes of one channel: its CallMapper skips it, refuses it or gives a sub call; without a
      mapper a response is allocated, which may fail. */
  datatype Mapped<T> = Skip | Bad | NoResponse | Sub(call: T)

  predicate Usable<T>(m: Mapped<T>) { m.Skip? || m.Sub? }

  predicate AllUsable<T>(aps: seq<Mapped<T>>) { forall i :: 0 <= i < |aps| ==> Usable(aps[i]) }

  datatype Plan = Reject(code: int) | Plan(ndone: nat, failLimit: nat)

  function Subs<T>(aps: seq<Mapped<T>>): (r: seq<T>)
  {
    if aps == [] then []
    else Subs(aps[..|aps| - 1]) + (if aps[|aps| - 1].Sub? then [aps[|aps| - 1].call] else [])
  }

  lemma SubsExtend<T>(aps: seq<Mapped<T>>, i: nat)
    requires i < |aps|
    ensures Subs(aps[..i + 1]) == Subs(aps[..i]) + (if aps[i].Sub? then [aps[i].call] else [])
  {
    assert aps[..i + 1][..i] == aps[..i];
  }

  /** The k-th channel is the first that stops the call. */
  predicate FirstBad<T>(aps: seq<Mapped<T>>, k: nat) {
    k < |aps| && !Usable(aps[k]) && forall j :: 0 <= j < k ==> Usable(aps[j])
  }

  /**
   * Everything CallMethod tests before the sub calls, the mapping loop and the clamping of fail_limit.
   * failed is the code of a controller that failed beforehand, created whether the shared object could
   * be made, timerRc what adding the timeout's timer answers (0 also without timeout).
   */
  method PlanCall<T>(failed: int, hasResponse: bool, aps: seq<Mapped<T>>, optFailLimit: int,
                     created: bool, timerRc: int)
    returns (p: Plan)
    ensures p.Plan? <==>
      failed == 0 && hasResponse && AllUsable(aps) && Subs(aps) != [] && created && timerRc == 0
    ensures p.Plan? ==> p.ndone == |Subs(aps)| && 1 <= p.failLimit <= p.ndone
    ensures p.Plan? && optFailLimit < 0 ==> p.failLimit == p.ndone
    ensures p.Plan? && 1 <= optFailLimit <= p.ndone ==> p.failLimit == optFailLimit
    ensures p.Plan? && optFailLimit == 0 ==> p.failLimit == 1
    ensures p.Plan? && optFailLimit > p.ndone ==> p.failLimit == p.ndone
    // the first obstacle gives the code
    ensures failed != 0 ==> p == Reject(failed)
    ensures failed == 0 && !hasResponse ==> p == Reject(EINVAL)
    ensures failed == 0 && hasResponse && aps == [] ==> p == Reject(EPERM)
    ensures failed == 0 && hasResponse ==> forall k: nat :: FirstBad(aps, k) ==> p == Reject(if aps[k].Bad? then EREQUEST else ENOMEM)
    ensures failed == 0 && hasResponse && aps != [] && AllUsable(aps) ==>
      && (Subs(aps) == [] ==> p == Reject(ECANCELED))
      && (Subs(aps) != [] && !created ==> p == Reject(ENOMEM))
      && (Subs(aps) != [] && created && timerRc != 0 ==> p == Reject(timerRc))
  {
    var nchan := |aps|;
    if failed != 0 { return Reject(failed); }
    if !hasResponse { return Reject(EINVAL); }
    if nchan == 0 { return Reject(EPERM); }
    var ndone: int := nchan;
    for i := 0 to nchan
      invariant forall j :: 0 <= j < i ==> Usable(aps[j])
      invariant ndone == nchan - i + |Subs(aps[..i])|
    {
      SubsExtend(aps, i);
      if aps[i].Skip? {
        ndone := ndone - 1;
      } else if aps[i].Bad? {
        return Reject(EREQUEST);
      } else if aps[i].NoResponse? {
        return Reject(ENOMEM);
      }
    }
    assert aps[..nchan] == aps;
    if ndone <= 0 { return Reject(ECANCELED); }
    var limit: int := ndone;
    if optFailLimit >= 0 {
      limit := optFailLimit;
      if limit < 1 { limit := 1; } else if limit > ndone { limit := ndone; }
    }
    if !created { return Reject(ENOMEM); }
    if timerRc != 0 { return Reject(timerRc); }
    p := Plan(ndone, limit);
  }

  /** ParallelChannelDone::Create: index of the i-th channel's SubDone, -1 for skipped ones. */
  method CreateSubDoneMap<T>(aps: seq<Mapped<T>>) returns (subDoneMap: seq<int>)
    requires AllUsable(aps)
    ensures |subDoneMap| == |aps|
    ensures forall i :: 0 <= i < |aps| ==> subDoneMap[i] == if aps[i].Skip? then -1 else |Subs(aps[..i])|
  {
    subDoneMap := [];
    var doneIndex := 0;
    for i := 0 to |aps|
      invariant |subDoneMap| == i && doneIndex == |Subs(aps[..i])|
      invariant forall j :: 0 <= j < i ==> subDoneMap[j] == if aps[j].Skip? then -1 else |Subs(aps[..j])|
    {
      SubsExtend(aps, i);
      if aps[i].Skip? {
        subDoneMap := subDoneMap + [-1];
      } else {
        subDoneMap := subDoneMap + [doneIndex];
        doneIndex := doneIndex + 1;
      }
    }
  }

  lemma {:induction false} SubsPrefix<T>(aps: seq<Mapped<T>>, i: nat)
    requires i <= |aps|
    ensures Subs(aps[..i]) <= Subs(aps)
    decreases |aps|
  {
    if i < |aps| {
      var init := aps[..|aps| - 1];
      SubsPrefix(init, i);
      assert init[..i] == aps[..i];
    } else {
      assert aps[..i] == aps;
    }
  }

  /** sub_channel_controller(i): which sub call serves channel i; never out of range. */
  method SubChannelController<T>(aps: seq<Mapped<T>>, subDoneMap: seq<int>, subDones: seq<T>, i: int)
    returns (r: Option<T>)
    requires AllUsable(aps)
    requires subDones == Subs(aps) && |subDoneMap| == |aps|
    requires forall k :: 0 <= k < |aps| ==> subDoneMap[k] == if aps[k].Skip? then -1 else |Subs(aps[..k])|
    ensures r == if 0 <= i < |aps| && aps[i].Sub? then Some(aps[i].call) else None
  {
    r := None;
    if 0 <= i < |aps| {
      SubsExtend(aps, i);
      SubsPrefix(aps, i + 1);
      if |aps| == |subDones| {
        FullSubs(aps, i);
        r := Some(subDones[i]);
      } else if subDoneMap[i] >= 0 {
        r := Some(subDones[subDoneMap[i]]);
      }
    }
  }

  /** With nothing skipped the i-th channel owns the i-th sub call. */
  lemma {:induction false} FullSubs<T>(aps: seq<Mapped<T>>, i: nat)
    requires i < |aps| && |Subs(aps)| == |aps|
    ensures aps[i].Sub? && Subs(aps)[i] == aps[i].call
    decreases |aps|
  {
    var init := aps[..|aps| - 1];
    SubsShort(init);
    if i < |aps| - 1 { FullSubs(init, i); }
  }

  lemma {:induction false} SubsShort<T>(aps: seq<Mapped<T>>)
    ensures |Subs(aps)| <= |aps|
    decreases |aps|
  {
    if aps != [] { SubsShort(aps[..|aps| - 1]); }
  }
}
