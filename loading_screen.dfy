/** The loading overlay (src/components/LoadingScreen.tsx): the rotating status
    message, the simulated progress bar and its completion timer.

    Timers are explicit calls: each call of `MessageTick`, `ProgressTick` or
    `CompletionTimerFires` is one firing; `Math.random()` is a parameter `r`
    with `0 <= r < 1`. */
module LoadingScreen {
  import opened Arith

  /** The messages, in rotation order. */
  const LoadingMessages: seq<string> := [
    "Initializing...",
    "Loading 3D assets...",
    "Preparing animations...",
    "Setting up particles...",
    "Almost ready..."
  ]

  /** No two positions of `s` hold the same element. */
  predicate Distinct<T(==)>(s: seq<T>)
  {
    forall i, j :: 0 <= i < j < |s| ==> s[i] != s[j]
  }

  /** `Array.prototype.indexOf`: the first index holding `x`, or -1. */
  function IndexOf<T(==)>(s: seq<T>, x: T): (k: int)
    ensures -1 <= k < |s|
    ensures k == -1 <==> x !in s
    ensures k >= 0 ==> s[k] == x && forall j :: 0 <= j < k ==> s[j] != x
  {
    if s == [] then -1
    else if s[0] == x then 0
    else
      var k := IndexOf(s[1..], x);
      if k == -1 then -1 else k + 1
  }

  /** The rotation updater over a list: the element after `prev`, cyclically;
      an element not in the list (index -1) is followed by the first one. */
  function NextIn<T(==)>(msgs: seq<T>, prev: T): (next: T)
    requires |msgs| > 0
    ensures next in msgs
    ensures prev !in msgs ==> next == msgs[0]
  {
    msgs[(IndexOf(msgs, prev) + 1) % |msgs|]
  }

  /** In a list without repeats the `i`-th element is followed by the
      `(i + 1) mod n`-th. */
  lemma NextOfIndex<T>(msgs: seq<T>, i: nat)
    requires Distinct(msgs) && i < |msgs|
    ensures NextIn(msgs, msgs[i]) == msgs[(i + 1) % |msgs|]
  {
  }

  /** The element after `k` ticks. */
  function RotateIn<T(==)>(msgs: seq<T>, m: T, k: nat): T
    requires |msgs| > 0
    decreases k
  {
    if k == 0 then m else RotateIn(msgs, NextIn(msgs, m), k - 1)
  }

  lemma ModShift(n: nat, i: nat, k: nat)
    requires i < n && k > 0
    ensures ((i + 1) % n + (k - 1)) % n == (i + k) % n
  {
    if i + 1 < n {
      DivModUnique(i + 1, n, 0, i + 1);
    } else {
      DivModUnique(i + 1, n, 1, 0);
      var q, r := (k - 1) / n, (k - 1) % n;
      assert k - 1 == q * n + r;
      assert i + k == (q + 1) * n + r;
      DivModUnique(i + k, n, q + 1, r);
    }
  }

  /** One tick from the `i`-th element lands on the next one. */
  lemma RotateStep<T>(msgs: seq<T>, i: nat, k: nat)
    requires Distinct(msgs) && i < |msgs| && k > 0
    ensures RotateIn(msgs, msgs[i], k) == RotateIn(msgs, msgs[(i + 1) % |msgs|], k - 1)
  {
    NextOfIndex(msgs, i);
  }

  /** `k` ticks from the `i`-th element of a list without repeats reach the
      `(i + k) mod n`-th. */
  lemma {:induction false} RotateFrom<T>(msgs: seq<T>, i: nat, k: nat)
    requires Distinct(msgs) && i < |msgs|
    ensures RotateIn(msgs, msgs[i], k) == msgs[(i + k) % |msgs|]
    decreases k
  {
    if k > 0 {
      var n := |msgs|;
      var j := (i + 1) % n;
      RotateStep(msgs, i, k);
      assert RotateIn(msgs, msgs[j], k - 1) == msgs[(j + (k - 1)) % n] by {
        RotateFrom(msgs, j, k - 1);
      }
      assert (j + (k - 1)) % n == (i + k) % n by {
        ModShift(n, i, k);
      }
    } else {
      DivModUnique(i, |msgs|, 0, i);
    }
  }

  /** The five messages are distinct. */
  lemma MessagesDistinct()
    ensures Distinct(LoadingMessages)
  {
  }

  /** The message updater of the overlay. */
  function NextMessage(prev: string): (next: string)
    ensures next in LoadingMessages
    ensures prev !in LoadingMessages ==> next == LoadingMessages[0]
  {
    NextIn(LoadingMessages, prev)
  }

  /** `n` ticks bring every element of a list of `n` distinct elements back;
      an element not in the list joins the cycle at the first one. */
  lemma {:induction false} RotationCycleIn<T>(msgs: seq<T>, m: T)
    requires Distinct(msgs) && |msgs| > 0
    ensures m in msgs ==> RotateIn(msgs, m, |msgs|) == m
    ensures m !in msgs ==>
              RotateIn(msgs, m, 1) == msgs[0]
              && RotateIn(msgs, m, |msgs| + 1) == msgs[0]
  {
    var n := |msgs|;
    if m in msgs {
      var i := IndexOf(msgs, m);
      RotateFrom(msgs, i, n);
      DivModUnique(i + n, n, 1, i);
    } else {
      assert RotateIn(msgs, m, n + 1) == RotateIn(msgs, msgs[0], n);
      RotateFrom(msgs, 0, n);
      DivModUnique(n, n, 1, 0);
    }
  }

  /** Five ticks bring every message of the overlay back; an unknown message
      joins the cycle at "Initializing...". */
  lemma RotationCycle(m: string)
    ensures m in LoadingMessages ==> RotateIn(LoadingMessages, m, 5) == m
    ensures m !in LoadingMessages ==>
              NextMessage(m) == LoadingMessages[0]
              && RotateIn(LoadingMessages, m, 6) == LoadingMessages[0]
  {
    MessagesDistinct();
    RotationCycleIn(LoadingMessages, m);
  }

  /** The progress updater: +[2,7) below 80, +[1,4) from 80 to 95, and from
      95 on +[0.5,2.5) capped at 100. */
  function ProgressStep(prev: real, r: real): (next: real)
    requires IsDraw(r)
    ensures prev <= 100.0 ==> prev <= next <= 100.0
    ensures prev < 80.0 ==> prev + 2.0 <= next < prev + 7.0
    ensures 80.0 <= prev < 95.0 ==> prev + 1.0 <= next < prev + 4.0
    ensures 95.0 <= prev ==> next <= 100.0 && (next == 100.0 || prev + 0.5 <= next)
    ensures 95.0 <= prev ==> next < prev + 2.5
  {
    if prev >= 95.0 then
      var n := prev + r * 2.0 + 0.5;
      if n < 100.0 then n else 100.0
    else if prev >= 80.0 then prev + r * 3.0 + 1.0
    else prev + r * 5.0 + 2.0
  }

  /** Progress after a run of ticks with the given draws. */
  function Progress(start: real, draws: seq<real>): real
    requires forall i :: 0 <= i < |draws| ==> IsDraw(draws[i])
    decreases |draws|
  {
    if draws == [] then start else Progress(ProgressStep(start, draws[0]), draws[1..])
  }

  /** From any value in [0,100], any run of ticks stays in [0,100] and never
      goes down. */
  lemma {:induction false} ProgressStaysInRange(start: real, draws: seq<real>)
    requires forall i :: 0 <= i < |draws| ==> IsDraw(draws[i])
    requires 0.0 <= start <= 100.0
    ensures start <= Progress(start, draws) <= 100.0
    decreases |draws|
  {
    if draws != [] {
      ProgressStaysInRange(ProgressStep(start, draws[0]), draws[1..]);
    }
  }

  /** The overlay's state; `scheduled` says whether the effect's intervals and
      completion timer are live. */
  class LoadingScreenState {
    var loadingMessage: string
    var progress: real
    var scheduled: bool
    var completionPending: bool

    ghost predicate Valid()
      reads this
    {
      0.0 <= progress <= 100.0
    }

    constructor ()
      ensures Valid()
      ensures loadingMessage == LoadingMessages[0] && progress == 0.0
      ensures !scheduled && !completionPending
    {
      loadingMessage, progress := LoadingMessages[0], 0.0;
      scheduled, completionPending := false, false;
    }

    /** The effect on a change of `isLoading`: the previous timers are
      cleared; when loading, progress restarts at 0 and the timers start;
      otherwise nothing is scheduled. */
    method LoadingChanged(isLoading: bool)
      requires Valid()
      modifies this
      ensures Valid()
      ensures scheduled == isLoading && completionPending == isLoading
      ensures isLoading ==> progress == 0.0
      ensures !isLoading ==> progress == old(progress)
      ensures loadingMessage == old(loadingMessage)
    {
      scheduled, completionPending := false, false;
      if !isLoading {
        return;
      }
      progress := 0.0;
      scheduled, completionPending := true, true;
    }

    /** One firing of the message interval. */
    method MessageTick()
      modifies this
      ensures loadingMessage == if old(scheduled) then NextMessage(old(loadingMessage)) else old(loadingMessage)
      ensures progress == old(progress) && scheduled == old(scheduled)
      ensures completionPending == old(completionPending)
    {
      if scheduled {
        loadingMessage := NextMessage(loadingMessage);
      }
    }

    /** One firing of the progress interval, with draw `r`. */
    method ProgressTick(r: real)
      requires Valid() && IsDraw(r)
      modifies this
      ensures Valid()
      ensures progress == if old(scheduled) then ProgressStep(old(progress), r) else old(progress)
      ensures old(progress) <= progress
      ensures loadingMessage == old(loadingMessage) && scheduled == old(scheduled)
      ensures completionPending == old(completionPending)
    {
      if scheduled {
        progress := ProgressStep(progress, r);
      }
    }

    /** The completion timer: progress becomes exactly 100. */
    method CompletionTimerFires()
      requires Valid()
      modifies this
      ensures Valid()
      ensures old(completionPending) ==> progress == 100.0 && !completionPending
      ensures !old(completionPending) ==> progress == old(progress) && completionPending == old(completionPending)
      ensures old(progress) <= progress
      ensures loadingMessage == old(loadingMessage) && scheduled == old(scheduled)
    {
      if completionPending {
        progress := 100.0;
        completionPending := false;
      }
    }
  }
}
