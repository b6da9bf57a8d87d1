/**
 * The arrow-sequence QTE (ArrowQTEImages): a Fisher–Yates shuffle of the four directions,
 * then a judging loop that consumes the targets in order, fails at once on a wrong arrow
 * and fails when the time budget runs out.
 *
 * Input is one set of logical directions per frame (arrow key or WASD already mapped to
 * its direction); the clock is the frame's delta time, in exact real seconds; each
 * System.Random.Next(i + 1) draw is an oracle value in [0, i].
 */
module ArrowQte {
  import opened Wrappers
  import opened Mathf

  datatype Arrow = Up | Right | Left | Down

  /** The order of the pool the shuffle starts from. */
  const Pool: seq<Arrow> := [Up, Right, Left, Down]

  /** The keys the QTE reads: the four arrow keys, WASD, and any other key. */
  datatype Key = UpArrow | RightArrow | LeftArrow | DownArrow | W | D | A | S | Unmapped

  /** The direction a key stands for, if any. */
  function DirectionOf(k: Key): Option<Arrow> {
    match k
    case UpArrow => Some(Up)
    case W => Some(Up)
    case RightArrow => Some(Right)
    case D => Some(Right)
    case LeftArrow => Some(Left)
    case A => Some(Left)
    case DownArrow => Some(Down)
    case S => Some(Down)
    case Unmapped => None
  }

  /** The arrow key of a direction. */
  function ArrowKey(a: Arrow): Key {
    match a
    case Up => UpArrow
    case Right => RightArrow
    case Left => LeftArrow
    case Down => DownArrow
  }

  /** One frame of the QTE: its delta time and the keys that went down in it. */
  datatype Frame = Frame(dt: real, keys: set<Key>)

  /** Whether the arrow key or the letter key of direction a went down. */
  predicate Pressed(keys: set<Key>, a: Arrow) {
    match a
    case Up => UpArrow in keys || W in keys
    case Right => RightArrow in keys || D in keys
    case Left => LeftArrow in keys || A in keys
    case Down => DownArrow in keys || S in keys
  }

  /** A direction counts as pressed exactly when some key that went down maps to it. */
  lemma PressedIffMappedKey(keys: set<Key>, a: Arrow)
    ensures Pressed(keys, a) <==> exists k :: k in keys && DirectionOf(k) == Some(a)
  {
    if Pressed(keys, a) {
      var k := if ArrowKey(a) in keys then ArrowKey(a) else match a case Up => W case Right => D case Left => A case Down => S;
      assert k in keys && DirectionOf(k) == Some(a);
    }
  }

  /** Whether a mapped key of a direction other than `expected` went down. */
  predicate PressedOtherThan(keys: set<Key>, expected: Arrow) {
    var up := Pressed(keys, Up);
    var right := Pressed(keys, Right);
    var left := Pressed(keys, Left);
    var down := Pressed(keys, Down);
    match expected
    case Up => right || left || down
    case Right => up || left || down
    case Left => up || right || down
    case Down => up || right || left
  }

  /** The wrong-press test holds exactly when some direction other than the expected one is pressed. */
  lemma PressedOtherThanIff(keys: set<Key>, expected: Arrow)
    ensures PressedOtherThan(keys, expected) <==> exists a :: a != expected && Pressed(keys, a)
  {
  }

  /** A frame in which no mapped key went down. */
  predicate Idle(keys: set<Key>) {
    forall k :: k in keys ==> DirectionOf(k).None?
  }

  lemma IdleNothingPressed(keys: set<Key>)
    requires Idle(keys)
    ensures forall a :: !Pressed(keys, a)
  {
    forall a
      ensures !Pressed(keys, a)
    {
      assert DirectionOf(ArrowKey(a)).Some?;
    }
  }

  // ---------------------------------------------------------------- the shuffle

  function Swap(s: seq<Arrow>, i: nat, j: nat): (r: seq<Arrow>)
    requires i < |s| && j < |s|
    ensures |r| == |s| && r[i] == s[j] && r[j] == s[i]
    ensures forall k :: 0 <= k < |s| && k != i && k != j ==> r[k] == s[k]
  {
    s[i := s[j]][j := s[i]]
  }

  lemma SwapPermutes(s: seq<Arrow>, i: nat, j: nat)
    requires i < |s| && j < |s|
    ensures multiset(Swap(s, i, j)) == multiset(s)
  {
  }

  /** Draws for the shuffle steps at positions i, i - 1, ..., 1 in that order: the draw for position p lies in [0, p]. */
  predicate ValidDraws(draws: seq<nat>, i: nat)
    decreases i
  {
    |draws| == i && (i == 0 || (draws[0] <= i && ValidDraws(draws[1..], i - 1)))
  }

  /** The Fisher–Yates loop from position i down to 1: swap position p with its draw. */
  function ShuffleFrom(s: seq<Arrow>, draws: seq<nat>, i: nat): seq<Arrow>
    requires i < |s| && ValidDraws(draws, i)
    decreases i
  {
    if i == 0 then s else ShuffleFrom(Swap(s, i, draws[0]), draws[1..], i - 1)
  }

  /** No direction occurs twice. */
  predicate Distinct(s: seq<Arrow>) {
    forall x :: multiset(s)[x] <= 1
  }

  lemma TwoOccurrences(s: seq<Arrow>, a: nat, b: nat)
    requires a < b < |s| && s[a] == s[b]
    ensures multiset(s)[s[a]] >= 2
  {
    assert s == s[..a] + [s[a]] + s[a + 1..b] + [s[b]] + s[b + 1..];
  }

  lemma DistinctIndices(s: seq<Arrow>, a: nat, b: nat)
    requires Distinct(s) && a < |s| && b < |s| && s[a] == s[b]
    ensures a == b
  {
    if a < b {
      TwoOccurrences(s, a, b);
    } else if b < a {
      TwoOccurrences(s, b, a);
    }
  }

  /** The shuffle only reorders: same length, same elements with the same multiplicities. */
  lemma {:induction false} ShufflePermutes(s: seq<Arrow>, draws: seq<nat>, i: nat)
    requires i < |s| && ValidDraws(draws, i)
    ensures |ShuffleFrom(s, draws, i)| == |s|
    ensures multiset(ShuffleFrom(s, draws, i)) == multiset(s)
    decreases i
  {
    if i > 0 {
      SwapPermutes(s, i, draws[0]);
      ShufflePermutes(Swap(s, i, draws[0]), draws[1..], i - 1);
    }
  }

  /** Positions above i are final: the steps still to come never touch them. */
  lemma {:induction false} ShuffleKeepsTail(s: seq<Arrow>, draws: seq<nat>, i: nat, p: nat)
    requires i < p < |s| && ValidDraws(draws, i)
    ensures |ShuffleFrom(s, draws, i)| == |s| && ShuffleFrom(s, draws, i)[p] == s[p]
    decreases i
  {
    ShufflePermutes(s, draws, i);
    if i > 0 {
      var s' := Swap(s, i, draws[0]);
      assert s'[p] == s[p];
      ShuffleKeepsTail(s', draws[1..], i - 1, p);
      assert ShuffleFrom(s, draws, i) == ShuffleFrom(s', draws[1..], i - 1);
    }
  }

  /**
   * Different draws give different orders: the shuffle is one-to-one from the
   * (i + 1)! possible draw sequences onto orders of a pool of distinct directions,
   * so uniform draws give a uniformly random permutation.
   */
  lemma {:induction false} ShuffleInjective(s: seq<Arrow>, d1: seq<nat>, d2: seq<nat>, i: nat)
    requires i < |s| && Distinct(s) && ValidDraws(d1, i) && ValidDraws(d2, i)
    requires ShuffleFrom(s, d1, i) == ShuffleFrom(s, d2, i)
    ensures d1 == d2
    decreases i
  {
    if i > 0 {
      var s1 := Swap(s, i, d1[0]);
      var s2 := Swap(s, i, d2[0]);
      assert ShuffleFrom(s, d1, i) == ShuffleFrom(s1, d1[1..], i - 1);
      assert ShuffleFrom(s, d2, i) == ShuffleFrom(s2, d2[1..], i - 1);
      ShuffleKeepsTail(s1, d1[1..], i - 1, i);
      ShuffleKeepsTail(s2, d2[1..], i - 1, i);
      assert s1[i] == s[d1[0]] && s2[i] == s[d2[0]];
      assert s[d1[0]] == s[d2[0]];
      DistinctIndices(s, d1[0], d2[0]);
      SwapPermutes(s, i, d1[0]);
      ShuffleInjective(s1, d1[1..], d2[1..], i - 1);
      assert d1 == [d1[0]] + d1[1..];
      assert d2 == [d2[0]] + d2[1..];
    }
  }

  /** A shuffle of the pool holds each of the four directions exactly once. */
  lemma PoolShuffleIsPermutation(draws: seq<nat>)
    requires ValidDraws(draws, 3)
    ensures |ShuffleFrom(Pool, draws, 3)| == 4
    ensures multiset(ShuffleFrom(Pool, draws, 3)) == multiset(Pool)
    ensures forall x :: multiset(ShuffleFrom(Pool, draws, 3))[x] == 1
  {
    ShufflePermutes(Pool, draws, 3);
    PoolOnce();
  }

  lemma PoolOnce()
    ensures forall x :: multiset(Pool)[x] == 1
  {
    var m := multiset(Pool);
    assert Pool == [Up] + [Right] + [Left] + [Down];
    assert m == multiset{Up} + multiset{Right} + multiset{Left} + multiset{Down};
    forall x
      ensures m[x] == 1
    {
      match x
      case Up =>
      case Right =>
      case Left =>
      case Down =>
    }
  }

  /** The Fisher–Yates shuffle of RunQTE, done in place on a four-slot array. */
  method Shuffle(draws: seq<nat>) returns (order: seq<Arrow>)
    requires ValidDraws(draws, 3)
    ensures order == ShuffleFrom(Pool, draws, 3)
    ensures |order| == 4 && multiset(order) == multiset(Pool)
    ensures forall a :: multiset(order)[a] == 1
  {
    var a := new Arrow[4];
    a[0], a[1], a[2], a[3] := Up, Right, Left, Down;
    assert a[..] == Pool;
    var i := 3;
    while i > 0
      invariant 0 <= i <= 3
      invariant ValidDraws(draws[3 - i..], i)
      invariant ShuffleFrom(a[..], draws[3 - i..], i) == ShuffleFrom(Pool, draws, 3)
    {
      var j := draws[3 - i];
      ghost var before := a[..];
      ghost var rest := draws[3 - i..];
      assert rest[0] == j && rest[1..] == draws[3 - (i - 1)..];
      assert ShuffleFrom(before, rest, i) == ShuffleFrom(Swap(before, i, j), rest[1..], i - 1);
      a[i], a[j] := a[j], a[i];
      assert a[..] == Swap(before, i, j);
      i := i - 1;
    }
    order := a[..];
    PoolShuffleIsPermutation(draws);
  }

  // ---------------------------------------------------------------- the judging loop

  /** Where the judging loop stops: the cursor reached and whether a wrong arrow stopped it. */
  datatype Judged = Judged(cursor: nat, wrongPress: bool)

  /**
   * The judging loop from a remaining time t and a cursor: while time remains and a
   * target is left, the expected arrow advances the cursor, otherwise another arrow
   * fails at once; every frame that does not fail costs its delta time.
   */
  function JudgeFrom(targets: seq<Arrow>, frames: seq<Frame>, t: real, cursor: nat): (j: Judged)
    requires |targets| == 4 && cursor <= 4
    ensures cursor <= j.cursor <= 4
    ensures j.cursor <= cursor + |frames|
    ensures j.wrongPress ==> j.cursor < 4
    decreases |frames|
  {
    if !(t > 0.0 && cursor < 4) || frames == [] then Judged(cursor, false)
    else if Pressed(frames[0].keys, targets[cursor]) then
      JudgeFrom(targets, frames[1..], t - frames[0].dt, cursor + 1)
    else if PressedOtherThan(frames[0].keys, targets[cursor]) then Judged(cursor, true)
    else JudgeFrom(targets, frames[1..], t - frames[0].dt, cursor)
  }

  /** The QTE passes: all four targets consumed with no wrong arrow. */
  function Passes(targets: seq<Arrow>, frames: seq<Frame>, budget: real): (r: bool)
    requires |targets| == 4
    ensures r <==> JudgeFrom(targets, frames, budget, 0).cursor == 4
    ensures r ==> |frames| >= 4
  {
    var j := JudgeFrom(targets, frames, budget, 0);
    j.cursor == 4 && !j.wrongPress
  }

  /** The time the first n frames take. */
  function Elapsed(frames: seq<Frame>, n: nat): real
    requires n <= |frames|
  {
    if n == 0 then 0.0 else Elapsed(frames, n - 1) + frames[n - 1].dt
  }

  lemma {:induction false} ElapsedShift(frames: seq<Frame>, n: nat)
    requires 0 < |frames| && n < |frames|
    ensures Elapsed(frames, n + 1) == frames[0].dt + Elapsed(frames[1..], n)
  {
    if n > 0 {
      ElapsedShift(frames, n - 1);
    }
  }

  /** The first n frames of frames ++ later take as long as the first n of frames. */
  lemma {:induction false} ElapsedPrefix(frames: seq<Frame>, later: seq<Frame>, n: nat)
    requires n <= |frames|
    ensures Elapsed(frames + later, n) == Elapsed(frames, n)
  {
    if n > 0 {
      ElapsedPrefix(frames, later, n - 1);
      assert (frames + later)[n - 1] == frames[n - 1];
    }
  }

  lemma {:induction false} ElapsedMonotone(frames: seq<Frame>, m: nat, n: nat)
    requires m <= n <= |frames|
    requires forall k :: 0 <= k < |frames| ==> frames[k].dt >= 0.0
    ensures Elapsed(frames, m) <= Elapsed(frames, n)
    decreases n - m
  {
    if m < n {
      ElapsedMonotone(frames, m, n - 1);
    }
  }

  /** A wrong arrow on the frame being judged fails there, whatever the later frames hold. */
  lemma WrongPressFailsAtOnce(targets: seq<Arrow>, f: Frame, rest1: seq<Frame>, rest2: seq<Frame>, t: real, cursor: nat)
    requires |targets| == 4 && cursor < 4 && t > 0.0
    requires !Pressed(f.keys, targets[cursor]) && exists a :: a != targets[cursor] && Pressed(f.keys, a)
    ensures JudgeFrom(targets, [f] + rest1, t, cursor) == Judged(cursor, true)
    ensures JudgeFrom(targets, [f] + rest2, t, cursor) == Judged(cursor, true)
  {
    PressedOtherThanIff(f.keys, targets[cursor]);
  }

  /** The expected arrow wins over any other key pressed in the same frame. */
  lemma ExpectedTakesPrecedence(targets: seq<Arrow>, f: Frame, rest: seq<Frame>, t: real, cursor: nat)
    requires |targets| == 4 && cursor < 4 && t > 0.0 && Pressed(f.keys, targets[cursor])
    ensures JudgeFrom(targets, [f] + rest, t, cursor) == JudgeFrom(targets, [Frame(f.dt, {ArrowKey(targets[cursor])})] + rest, t, cursor)
    ensures JudgeFrom(targets, [f] + rest, t, cursor) == JudgeFrom(targets, rest, t - f.dt, cursor + 1)
  {
    assert ([f] + rest)[1..] == rest;
    assert ([Frame(f.dt, {ArrowKey(targets[cursor])})] + rest)[1..] == rest;
  }

  /** Without the expected arrow in any frame the cursor never moves. */
  lemma {:induction false} NoExpectedNoProgress(targets: seq<Arrow>, frames: seq<Frame>, t: real, cursor: nat)
    requires |targets| == 4 && cursor <= 4
    requires forall k :: 0 <= k < |frames| ==> cursor == 4 || !Pressed(frames[k].keys, targets[cursor])
    ensures JudgeFrom(targets, frames, t, cursor).cursor == cursor
    decreases |frames|
  {
    if t > 0.0 && cursor < 4 && frames != [] && !PressedOtherThan(frames[0].keys, targets[cursor]) {
      NoExpectedNoProgress(targets, frames[1..], t - frames[0].dt, cursor);
    }
  }

  /** With no mapped key pressed at all, the QTE fails. */
  lemma NoInputFails(targets: seq<Arrow>, frames: seq<Frame>, budget: real)
    requires |targets| == 4
    requires forall k :: 0 <= k < |frames| ==> Idle(frames[k].keys)
    ensures !Passes(targets, frames, budget)
  {
    forall k | 0 <= k < |frames|
      ensures !Pressed(frames[k].keys, targets[0])
    {
      assert Idle(frames[k].keys);
    }
    NoExpectedNoProgress(targets, frames, budget, 0);
  }

  /** The judging loop as it stands at frame j with cursor c: the frames from j on, with the time the first j frames left. */
  function ResumeAt(targets: seq<Arrow>, frames: seq<Frame>, budget: real, j: nat, c: nat): Judged
    requires |targets| == 4 && c <= 4 && j <= |frames|
  {
    JudgeFrom(targets, frames[j..], budget - Elapsed(frames, j), c)
  }

  /**
   * Frame j, starting while time remains: the expected arrow moves the cursor on, and a
   * frame without any mapped key only spends its delta time.
   */
  lemma {:induction false} StepAt(targets: seq<Arrow>, frames: seq<Frame>, budget: real, j: nat, c: nat)
    requires |targets| == 4 && c < 4 && j < |frames| && Elapsed(frames, j) < budget
    ensures Pressed(frames[j].keys, targets[c]) ==> ResumeAt(targets, frames, budget, j, c) == ResumeAt(targets, frames, budget, j + 1, c + 1)
    ensures Idle(frames[j].keys) ==> ResumeAt(targets, frames, budget, j, c) == ResumeAt(targets, frames, budget, j + 1, c)
  {
    assert frames[j..][0] == frames[j] && frames[j..][1..] == frames[j + 1..];
    if Idle(frames[j].keys) {
      IdleNothingPressed(frames[j].keys);
    }
  }

  /** A run of frames without any mapped key, up to a frame that starts while time remains, changes nothing but the time. */
  lemma {:induction false} IdleRun(targets: seq<Arrow>, frames: seq<Frame>, budget: real, from: nat, to: nat, c: nat)
    requires |targets| == 4 && c < 4 && from <= to < |frames| && Elapsed(frames, to) < budget
    requires forall k :: 0 <= k < |frames| ==> frames[k].dt >= 0.0
    requires forall k :: from <= k < to ==> Idle(frames[k].keys)
    ensures ResumeAt(targets, frames, budget, from, c) == ResumeAt(targets, frames, budget, to, c)
    decreases |frames| - from
  {
    if from < to {
      ElapsedMonotone(frames, from, to);
      StepAt(targets, frames, budget, from, c);
      IdleRun(targets, frames, budget, from + 1, to, c);
    }
  }

  /** Idle frames from `from` up to frame k, which holds the expected arrow and starts while time remains: the cursor moves on past k. */
  lemma {:induction false} PressAfterIdle(targets: seq<Arrow>, frames: seq<Frame>, budget: real, from: nat, k: nat, c: nat)
    requires |targets| == 4 && c < 4 && from <= k < |frames| && Elapsed(frames, k) < budget
    requires forall i :: 0 <= i < |frames| ==> frames[i].dt >= 0.0
    requires forall i :: from <= i < k ==> Idle(frames[i].keys)
    requires Pressed(frames[k].keys, targets[c])
    ensures ResumeAt(targets, frames, budget, from, c) == ResumeAt(targets, frames, budget, k + 1, c + 1)
  {
    IdleRun(targets, frames, budget, from, k, c);
    StepAt(targets, frames, budget, k, c);
  }

  /**
   * The four targets pressed in order on frames k0 < k1 < k2 < k3, no mapped key on any
   * other frame before k3, and frame k3 starting inside the budget: the QTE passes,
   * whatever follows.
   */
  lemma {:induction false} CorrectSequencePasses(targets: seq<Arrow>, frames: seq<Frame>, budget: real, k0: nat, k1: nat, k2: nat, k3: nat)
    requires |targets| == 4 && k0 < k1 < k2 < k3 < |frames|
    requires Pressed(frames[k0].keys, targets[0]) && Pressed(frames[k1].keys, targets[1])
    requires Pressed(frames[k2].keys, targets[2]) && Pressed(frames[k3].keys, targets[3])
    requires forall k :: 0 <= k < k3 && k != k0 && k != k1 && k != k2 ==> Idle(frames[k].keys)
    requires forall k :: 0 <= k < |frames| ==> frames[k].dt >= 0.0
    requires Elapsed(frames, k3) < budget
    ensures Passes(targets, frames, budget)
  {
    ElapsedMonotone(frames, k1, k3);
    TwoPresses(targets, frames, budget, 0, k0, k1, 0);
    TwoPresses(targets, frames, budget, k1 + 1, k2, k3, 2);
    ResumeAtStart(targets, frames, budget);
    assert ResumeAt(targets, frames, budget, k3 + 1, 4) == Judged(4, false);
  }

  /** Two expected arrows on frames a < b after `from`, with idle frames around them, move the cursor on by two. */
  lemma {:induction false} TwoPresses(targets: seq<Arrow>, frames: seq<Frame>, budget: real, from: nat, a: nat, b: nat, c: nat)
    requires |targets| == 4 && c < 3 && from <= a < b < |frames| && Elapsed(frames, b) < budget
    requires forall i :: 0 <= i < |frames| ==> frames[i].dt >= 0.0
    requires forall i :: from <= i < b && i != a ==> Idle(frames[i].keys)
    requires Pressed(frames[a].keys, targets[c]) && Pressed(frames[b].keys, targets[c + 1])
    ensures ResumeAt(targets, frames, budget, from, c) == ResumeAt(targets, frames, budget, b + 1, c + 2)
  {
    ElapsedMonotone(frames, a, b);
    assert forall i :: from <= i < a ==> Idle(frames[i].keys);
    PressAfterIdle(targets, frames, budget, from, a, c);
    assert forall i :: a + 1 <= i < b ==> Idle(frames[i].keys);
    PressAfterIdle(targets, frames, budget, a + 1, b, c + 1);
  }

  lemma ResumeAtStart(targets: seq<Arrow>, frames: seq<Frame>, budget: real)
    requires |targets| == 4
    ensures ResumeAt(targets, frames, budget, 0, 0) == JudgeFrom(targets, frames, budget, 0)
  {
    assert frames[0..] == frames;
  }

  /** Frames that start once the time t is spent are never judged: the loop stops before them. */
  lemma {:induction false} LateFramesIgnored(targets: seq<Arrow>, frames: seq<Frame>, t: real, cursor: nat, n: nat)
    requires |targets| == 4 && cursor <= 4 && n <= |frames| && Elapsed(frames, n) >= t
    ensures JudgeFrom(targets, frames, t, cursor) == JudgeFrom(targets, frames[..n], t, cursor)
    decreases n
  {
    if n > 0 && t > 0.0 && cursor < 4 {
      ElapsedShift(frames, n - 1);
      assert frames[..n][1..] == frames[1..][..n - 1];
      var t' := t - frames[0].dt;
      LateFramesIgnored(targets, frames[1..], t', cursor, n - 1);
      LateFramesIgnored(targets, frames[1..], t', cursor + 1, n - 1);
    }
  }

  /** Whatever is pressed after the budget is spent leaves the result unchanged. */
  lemma InputAfterBudgetIgnored(targets: seq<Arrow>, frames: seq<Frame>, later: seq<Frame>, budget: real)
    requires |targets| == 4 && Elapsed(frames, |frames|) >= budget
    ensures Passes(targets, frames + later, budget) == Passes(targets, frames, budget)
  {
    ElapsedPrefix(frames, later, |frames|);
    LateFramesIgnored(targets, frames + later, budget, 0, |frames|);
    assert (frames + later)[..|frames|] == frames;
  }

  /** Reaching the end of the targets from cursor c needs at least 4 - c frames, all started while time remained. */
  lemma {:induction false} CompletionNeedsFrames(targets: seq<Arrow>, frames: seq<Frame>, t: real, cursor: nat)
    requires |targets| == 4 && cursor < 4
    requires forall k :: 0 <= k < |frames| ==> frames[k].dt >= 0.0
    requires JudgeFrom(targets, frames, t, cursor).cursor == 4
    ensures |frames| >= 4 - cursor && Elapsed(frames, 3 - cursor) < t
    decreases |frames|
  {
    var rest := frames[1..];
    var t' := t - frames[0].dt;
    if Pressed(frames[0].keys, targets[cursor]) {
      if cursor < 3 {
        CompletionNeedsFrames(targets, rest, t', cursor + 1);
        ElapsedShift(frames, 2 - cursor);
      }
    } else {
      CompletionNeedsFrames(targets, rest, t', cursor);
      ElapsedShift(frames, 3 - cursor);
      ElapsedMonotone(frames, 3 - cursor, 4 - cursor);
    }
  }

  /** Frame n of frames[1..] completing the sequence from t - dt is frame n + 1 of frames completing it from t. */
  lemma CompletingFrameShift(targets: seq<Arrow>, frames: seq<Frame>, t: real, cursor: nat, cursor': nat, n: nat)
    requires |targets| == 4 && cursor <= cursor' <= 4 && frames != [] && n < |frames| - 1
    requires JudgeFrom(targets, frames[..n + 2], t, cursor) == JudgeFrom(targets, frames[1..][..n + 1], t - frames[0].dt, cursor')
    requires Elapsed(frames[1..], n) < t - frames[0].dt
    requires JudgeFrom(targets, frames[1..][..n + 1], t - frames[0].dt, cursor') == Judged(4, false)
    ensures Elapsed(frames, n + 1) < t && frames[n + 1] == frames[1..][n]
    ensures JudgeFrom(targets, frames[..n + 2], t, cursor) == Judged(4, false)
  {
    ElapsedShift(frames, n);
  }

  /** Some frame n, started before the time ran out, holds the last target and completes the sequence on its own prefix. */
  lemma {:induction false} CompletingFrame(targets: seq<Arrow>, frames: seq<Frame>, t: real, cursor: nat)
    requires |targets| == 4 && cursor < 4
    requires JudgeFrom(targets, frames, t, cursor).cursor == 4
    ensures exists n :: 3 - cursor <= n < |frames| && Elapsed(frames, n) < t && Pressed(frames[n].keys, targets[3])
                        && JudgeFrom(targets, frames[..n + 1], t, cursor) == Judged(4, false)
    decreases |frames|
  {
    var rest := frames[1..];
    var t' := t - frames[0].dt;
    var next := if Pressed(frames[0].keys, targets[cursor]) then cursor + 1 else cursor;
    if next == 4 {
      assert frames[..1][1..] == [];
      assert JudgeFrom(targets, frames[..1], t, cursor) == Judged(4, false);
      assert Elapsed(frames, 0) < t;
    } else {
      assert JudgeFrom(targets, frames, t, cursor) == JudgeFrom(targets, rest, t', next);
      CompletingFrame(targets, rest, t', next);
      var n :| 3 - next <= n < |rest| && Elapsed(rest, n) < t' && Pressed(rest[n].keys, targets[3])
                && JudgeFrom(targets, rest[..n + 1], t', next) == Judged(4, false);
      assert frames[..n + 2][1..] == rest[..n + 1];
      CompletingFrameShift(targets, frames, t, cursor, next, n);
    }
  }

  /**
   * Reaching the end of the targets from cursor c needs at least 4 - c frames, the first
   * 4 - c of them started while time remained; and some frame n, started before the time
   * ran out, holds the last target and completes the sequence on its own prefix.
   */
  lemma CompletionNeedsTime(targets: seq<Arrow>, frames: seq<Frame>, t: real, cursor: nat)
    requires |targets| == 4 && cursor < 4
    requires forall k :: 0 <= k < |frames| ==> frames[k].dt >= 0.0
    requires JudgeFrom(targets, frames, t, cursor).cursor == 4
    ensures |frames| >= 4 - cursor && Elapsed(frames, 3 - cursor) < t
    ensures exists n :: 3 - cursor <= n < |frames| && Elapsed(frames, n) < t && Pressed(frames[n].keys, targets[3])
                        && JudgeFrom(targets, frames[..n + 1], t, cursor) == Judged(4, false)
  {
    CompletionNeedsFrames(targets, frames, t, cursor);
    CompletingFrame(targets, frames, t, cursor);
  }

  /**
   * A pass needs at least four frames, the fourth starting before the budget is spent,
   * and is already decided on the frame n that consumes the last target, a frame that
   * starts inside the budget: otherwise the QTE times out.
   */
  lemma PassNeedsBudget(targets: seq<Arrow>, frames: seq<Frame>, budget: real)
    requires |targets| == 4
    requires forall k :: 0 <= k < |frames| ==> frames[k].dt >= 0.0
    requires Passes(targets, frames, budget)
    ensures |frames| >= 4 && Elapsed(frames, 3) < budget
    ensures exists n :: 3 <= n < |frames| && Elapsed(frames, n) < budget && Pressed(frames[n].keys, targets[3])
                        && Passes(targets, frames[..n + 1], budget)
  {
    CompletionNeedsTime(targets, frames, budget, 0);
  }

  class ArrowQteImages {
    var totalTime: real

    constructor ()
      ensures totalTime == 3.5
    {
      totalTime := 3.5;
    }

    /** The time budget, clamped to at least half a second. */
    method SetTotalTime(seconds: real)
      modifies this
      ensures totalTime == RealMax(0.5, seconds)
      ensures totalTime >= 0.5 && (seconds >= 0.5 ==> totalTime == seconds)
    {
      totalTime := RealMax(0.5, seconds);
    }

    /**
     * RunQTE: shuffles the targets, then judges the frames. Returns the targets shown
     * and the one value passed to onDone. The frames given cover the whole budget.
     */
    method RunQte(draws: seq<nat>, frames: seq<Frame>) returns (targets: seq<Arrow>, ok: bool)
      requires ValidDraws(draws, 3)
      requires Elapsed(frames, |frames|) >= totalTime
      ensures targets == ShuffleFrom(Pool, draws, 3)
      ensures |targets| == 4 && forall a :: multiset(targets)[a] == 1
      ensures ok == Passes(targets, frames, totalTime)
    {
      targets := Shuffle(draws);
      ok := JudgeInput(targets, frames, totalTime);
    }
  }

  /** The judging loop of RunQTE over the frames that follow the shuffle. */
  method JudgeInput(targets: seq<Arrow>, frames: seq<Frame>, budget: real) returns (ok: bool)
    requires |targets| == 4
    requires Elapsed(frames, |frames|) >= budget
    ensures ok == Passes(targets, frames, budget)
  {
    var t := budget;
    var index := 0;
    ok := true;
    var k := 0;
    while t > 0.0 && index < 4
      invariant 0 <= k <= |frames| && 0 <= index <= 4 && ok
      invariant t == budget - Elapsed(frames, k)
      invariant JudgeFrom(targets, frames[k..], t, index) == JudgeFrom(targets, frames, budget, 0)
      decreases |frames| - k
    {
      var expected := targets[index];
      var keys := frames[k].keys;
      assert frames[k..][1..] == frames[k + 1..];
      if Pressed(keys, expected) {
        index := index + 1;
      } else if PressedOtherThan(keys, expected) {
        ok := false;
        break;
      }
      t := t - frames[k].dt;
      k := k + 1;
    }
    if index < 4 {
      ok := false;
    }
  }
}
