/**
 The passage of time: expiring many clocks at once against expiring them one by
 one, and the HLT loop, which expires single clocks until INTR rises.
 */
module Clock {
  import opened Words
  import Pic
  import opened Io

  /** `n` calls of `pitExpireClocks(vm, 1)`. */
  function Singles(d: Devices, n: nat): Outcome<Devices> {
    if n == 0 then Ok(d)
    else
      var d1 :- Singles(d, n - 1);
      ExpireAll(d1, 1)
  }

  /** Single clocks until an active timer first expires. */
  function FirstExpiry(t: Timer): nat {
    Max(t.counter, 1)
  }

  function Period(t: Timer): nat {
    Max(t.counterMax, 1)
  }

  /** The remainder of `k` on division by `period`. */
  function Phase(k: nat, period: nat): (r: nat)
    requires period > 0
    ensures r < period
  {
    if k < period then k else Phase(k - period, period)
  }

  /** Where single clocks have taken one timer: a closed form, with no iteration in it. */
  function After(t: Timer, n: nat): Timer {
    if !t.active then t
    else if n < FirstExpiry(t) then t.(counter := t.counter - n)
    else if t.mode == 0 then t.(counter := 0, active := false)
    else t.(counter := t.counterMax - Phase(n - FirstExpiry(t), Period(t)))
  }

  function PicAfter(d: Devices, n: nat): Pic.Pics {
    if d.timers[0].active && FirstExpiry(d.timers[0]) <= n then Pic.RaiseMaster(d.pic, 0) else d.pic
  }

  lemma {:induction false} NextPhase(k: nat, period: nat)
    requires period > 0
    ensures Phase(k + 1, period) == if Phase(k, period) + 1 == period then 0 else Phase(k, period) + 1
  {
    if k >= period {
      NextPhase(k - period, period);
    }
  }

  /** One more single clock moves the closed form on by one, expiring at or after the first expiry only. */
  ghost predicate MovesOn(t: Timer, n: nat) {
    && Expire(After(t, n), 1).Ok?
    && Expire(After(t, n), 1).value.0 == After(t, n + 1)
    && (Expire(After(t, n), 1).value.1 ==> t.active && FirstExpiry(t) <= n + 1)
    && (t.active && FirstExpiry(t) == n + 1 ==> Expire(After(t, n), 1).value.1)
  }

  lemma AfterNextEarly(t: Timer, n: nat)
    requires (t.mode == 0 || t.mode == 2) && t.active && n < FirstExpiry(t)
    ensures MovesOn(t, n)
  {
    assert After(t, n).counter == t.counter - n;
  }

  lemma AfterNextPeriodic(t: Timer, n: nat)
    requires t.mode == 2 && t.active && FirstExpiry(t) <= n
    ensures MovesOn(t, n)
  {
    var m := FirstExpiry(t);
    var phase := Phase(n - m, Period(t));
    NextPhase(n - m, Period(t));
    assert n + 1 - m == n - m + 1;
    hide Phase;
    assert After(t, n).counter == t.counterMax - phase;
    assert After(t, n + 1).counter == t.counterMax - (if phase + 1 == Period(t) then 0 else phase + 1);
  }

  lemma AfterNext(t: Timer, n: nat)
    requires t.mode == 0 || t.mode == 2
    ensures MovesOn(t, n)
  {
    if t.active && n < FirstExpiry(t) {
      AfterNextEarly(t, n);
    } else if t.active && t.mode == 2 {
      AfterNextPeriodic(t, n);
    }
  }

  lemma AfterNone(t: Timer)
    ensures After(t, 0) == t
  {
  }

  lemma RaiseTwice(s: Pic.Pics, line: nat)
    ensures Pic.RaiseMaster(Pic.RaiseMaster(s, line), line) == Pic.RaiseMaster(s, line)
  {
  }

  lemma {:induction false} SinglesClosedForm(d: Devices, n: nat)
    requires ModesOk(d)
    ensures Singles(d, n) == Ok(Devices(PicAfter(d, n), [After(d.timers[0], n), After(d.timers[1], n), After(d.timers[2], n)]))
  {
    hide Pic.RaiseMaster, After;
    if n == 0 {
      AfterNone(d.timers[0]);
      AfterNone(d.timers[1]);
      AfterNone(d.timers[2]);
      assert d.timers == [d.timers[0], d.timers[1], d.timers[2]];
    } else {
      SinglesClosedForm(d, n - 1);
      AfterNext(d.timers[0], n - 1);
      AfterNext(d.timers[1], n - 1);
      AfterNext(d.timers[2], n - 1);
      RaiseTwice(d.pic, 0);
    }
  }

  /** The condition under which a batch of `n` clocks leaves a timer where single clocks do. */
  predicate BatchExact(t: Timer, n: nat) {
    || !t.active
    || t.mode == 0
    || n < FirstExpiry(t)
    || Phase(n - FirstExpiry(t), Period(t)) == 0
  }

  /**
   Batched clocks refine single clocks: the controllers always agree, and a
   timer agrees exactly when it is not a rate generator left in mid-period.
   */
  lemma BatchRefinesSingles(d: Devices, n: nat)
    requires ModesOk(d) && n >= 1
    ensures ExpireAll(d, n).Ok? && Singles(d, n).Ok?
    ensures ExpireAll(d, n).value.pic == Singles(d, n).value.pic
    ensures forall i | 0 <= i < 3 ::
      ExpireAll(d, n).value.timers[i] == Singles(d, n).value.timers[i] <==> BatchExact(d.timers[i], n)
    ensures forall i | 0 <= i < 3 && d.timers[i].mode == 2 && n <= FirstExpiry(d.timers[i]) :: BatchExact(d.timers[i], n)
  {
    hide Pic.RaiseMaster, Singles, After, BatchExact;
    SinglesClosedForm(d, n);
    BatchOne(d.timers[0], n);
    BatchOne(d.timers[1], n);
    BatchOne(d.timers[2], n);
  }

  /** The mode-2 timer that counts 10 down from 10. */
  const EVERY_TEN := IDLE.(mode := 2, counterMax := 10, counter := 10, active := true)

  /** Fifteen clocks at once restart the period; fifteen single clocks are half way through it. */
  lemma BatchDiffers()
    ensures var d := POWER_ON.(timers := [EVERY_TEN, IDLE, IDLE]);
      && ModesOk(d) && ExpireAll(d, 15).Ok? && Singles(d, 15).Ok?
      && ExpireAll(d, 15).value.timers[0].counter == 10
      && Singles(d, 15).value.timers[0].counter == 5
      && ExpireAll(d, 15).value.pic == Singles(d, 15).value.pic
  {
    var d := POWER_ON.(timers := [EVERY_TEN, IDLE, IDLE]);
    SinglesClosedForm(d, 15);
    BatchRefinesSingles(d, 15);
    assert Phase(5, 10) == 5;
    hide Singles, Pic.RaiseMaster;
  }

  lemma BatchOne(t: Timer, n: nat)
    requires (t.mode == 0 || t.mode == 2) && n >= 1
    ensures Expire(t, n).Ok?
    ensures Expire(t, n).value.0 == After(t, n) <==> BatchExact(t, n)
    ensures t.mode == 2 && n <= FirstExpiry(t) ==> BatchExact(t, n)
    ensures Expire(t, n).value.1 <==> t.active && FirstExpiry(t) <= n
  {
  }

  /** What a halted guest waits for: the timer runs, its line is open, and nothing is in service. */
  predicate WillWake(d: Devices) {
    || d.pic.intr
    || (d.timers[0].active && 0 !in d.pic.master.imr && d.pic.master.isr == {})
  }

  /** How many single clocks the HLT loop expires before INTR is up. */
  function HaltClocks(d: Devices): nat {
    if d.pic.intr then 0 else FirstExpiry(d.timers[0])
  }

  lemma IntrAfter(d: Devices, n: nat)
    requires Inv(d)
    ensures Singles(d, n).Ok?
    ensures Singles(d, n).value.pic.intr <==> WillWake(d) && HaltClocks(d) <= n
  {
    hide Singles, After;
    SinglesClosedForm(d, n);
    if !d.pic.intr && 0 in d.pic.master.irr && 0 !in d.pic.master.imr {
      assert 0 in Pic.Unmasked(d.pic.master);
    }
  }

  /** HLT ends if and only if `WillWake`, and then after exactly `HaltClocks` single clocks. */
  lemma HaltTerminatesIff(d: Devices)
    requires Inv(d)
    ensures WillWake(d) <==> exists n: nat :: Singles(d, n).Ok? && Singles(d, n).value.pic.intr
    ensures WillWake(d) ==> forall n: nat :: Singles(d, n).Ok? && (Singles(d, n).value.pic.intr <==> HaltClocks(d) <= n)
  {
    hide Inv, Singles;
    forall n: nat
      ensures Singles(d, n).Ok?
      ensures Singles(d, n).value.pic.intr <==> WillWake(d) && HaltClocks(d) <= n
    {
      IntrAfter(d, n);
    }
    if WillWake(d) {
      assert Singles(d, HaltClocks(d)).value.pic.intr;
    }
  }
}
