/** The dispatch discipline of one processing cycle, as functions: the
    readiness and rate gates, and the pass over the table in order that
    sends a command for an entry only when its angle differs from the last
    one recorded for its pin. The last-angle table is keyed by pin alone,
    so entries behind different prefixes that share a pin share one slot. */
module Scheduler {
  import opened Base
  import opened Geometry
  import opened Landmarks
  import opened ServoTable
  import opened Commands
  import opened Resolver

  /** The minimum time in milliseconds between two processed snapshots. */
  const MinInterval: int := 15

  /** The state a pass works on: the last angle recorded per pin (a missing
      key is a pin never sent) and the commands sent so far in the pass. */
  datatype Pass = Pass(angles: map<int, int>, sent: seq<Command>)

  /** `angle !== lastAngles[cfg.pin]` */
  predicate Changed(angles: map<int, int>, pin: int, angle: int)
  {
    pin !in angles || angles[pin] != angle
  }

  /** The loop body for one entry with resolution `r`. */
  function Visit(p: Pass, cfg: ServoConfig, r: Option<int>): (q: Pass)
    ensures r.None? ==> q == p
    ensures r.Some? ==> q.angles == p.angles[cfg.pin := r.value]
    ensures r.Some? && Changed(p.angles, cfg.pin, r.value) ==>
      q.sent == p.sent + [Command(cfg.prefix, cfg.pin, r.value)]
    ensures r.Some? && !Changed(p.angles, cfg.pin, r.value) ==> q == p
  {
    match r
    case None => p
    case Some(a) =>
      if Changed(p.angles, cfg.pin, a) then
        Pass(p.angles[cfg.pin := a], p.sent + [Command(cfg.prefix, cfg.pin, a)])
      else p
  }

  /** The pass over `cfgs` (with resolutions `res`, entry by entry) starting
      from the last-angle table `last`. */
  function Dispatch(cfgs: seq<ServoConfig>, res: seq<Option<int>>, last: map<int, int>): (p: Pass)
    requires |res| == |cfgs|
    ensures |p.sent| <= |cfgs|
    decreases |cfgs|
  {
    if cfgs == [] then Pass(last, [])
    else
      var n := |cfgs| - 1;
      Visit(Dispatch(cfgs[..n], res[..n], last), cfgs[n], res[n])
  }

  /** The pass over the first `i + 1` entries is the pass over the first `i`
      followed by the loop body for entry `i`. */
  lemma DispatchStep(cfgs: seq<ServoConfig>, res: seq<Option<int>>, last: map<int, int>, i: int)
    requires |res| == |cfgs| && 0 <= i < |cfgs|
    ensures Dispatch(cfgs[..i + 1], res[..i + 1], last) ==
      Visit(Dispatch(cfgs[..i], res[..i], last), cfgs[i], res[i])
  {
    assert cfgs[..i + 1][..i] == cfgs[..i] && res[..i + 1][..i] == res[..i];
  }

  /** Reference for the final table: every resolved entry simply writes its
      pin, later entries over earlier ones, with no comparison at all. */
  function Writes(cfgs: seq<ServoConfig>, res: seq<Option<int>>, last: map<int, int>): map<int, int>
    requires |res| == |cfgs|
    decreases |cfgs|
  {
    if cfgs == [] then last
    else
      var n := |cfgs| - 1;
      var w := Writes(cfgs[..n], res[..n], last);
      if res[n].Some? then w[cfgs[n].pin := res[n].value] else w
  }

  /** Some resolved entry of the pass drives `pin`. */
  predicate Touches(cfgs: seq<ServoConfig>, res: seq<Option<int>>, pin: int)
    requires |res| == |cfgs|
  {
    exists i :: 0 <= i < |cfgs| && res[i].Some? && cfgs[i].pin == pin
  }

  /** Every resolved entry finds its own angle recorded for its pin. */
  predicate Agrees(cfgs: seq<ServoConfig>, res: seq<Option<int>>, angles: map<int, int>)
    requires |res| == |cfgs|
  {
    forall i :: 0 <= i < |cfgs| && res[i].Some? ==>
      cfgs[i].pin in angles && angles[cfgs[i].pin] == res[i].value
  }

  /** Resolved entries that share a pin resolve to the same angle. */
  predicate Consistent(cfgs: seq<ServoConfig>, res: seq<Option<int>>)
    requires |res| == |cfgs|
  {
    forall i, j :: 0 <= i < j < |cfgs| && res[i].Some? && res[j].Some? && cfgs[i].pin == cfgs[j].pin ==>
      res[i] == res[j]
  }

  /** Suppressing unchanged angles never changes the resulting table: it is
      exactly the table that writing every resolved angle would give. */
  lemma {:induction false} DispatchAnglesAreWrites(cfgs: seq<ServoConfig>, res: seq<Option<int>>, last: map<int, int>)
    requires |res| == |cfgs|
    ensures Dispatch(cfgs, res, last).angles == Writes(cfgs, res, last)
    decreases |cfgs|
  {
    if cfgs != [] {
      var n := |cfgs| - 1;
      DispatchAnglesAreWrites(cfgs[..n], res[..n], last);
    }
  }

  /** Pins no resolved entry drives keep their recorded state, and no pin
      loses a recorded angle. */
  lemma {:induction false} WritesFrame(cfgs: seq<ServoConfig>, res: seq<Option<int>>, last: map<int, int>, pin: int)
    requires |res| == |cfgs|
    ensures pin in last ==> pin in Writes(cfgs, res, last)
    ensures !Touches(cfgs, res, pin) ==>
      (pin in Writes(cfgs, res, last) <==> pin in last) &&
      (pin in last ==> Writes(cfgs, res, last)[pin] == last[pin])
    decreases |cfgs|
  {
    if cfgs != [] {
      var n := |cfgs| - 1;
      WritesFrame(cfgs[..n], res[..n], last, pin);
      if !Touches(cfgs, res, pin) {
        assert !Touches(cfgs[..n], res[..n], pin) by {
          forall i | 0 <= i < n && res[..n][i].Some?
            ensures cfgs[..n][i].pin != pin
          {
            assert res[i] == res[..n][i] && cfgs[i] == cfgs[..n][i];
          }
        }
        assert res[n].None? || cfgs[n].pin != pin;
      }
    }
  }

  /** After the pass, the pin of the last resolved entry driving it holds
      that entry's angle. */
  lemma {:induction false} WritesLastWins(cfgs: seq<ServoConfig>, res: seq<Option<int>>, last: map<int, int>, k: int)
    requires |res| == |cfgs|
    requires 0 <= k < |cfgs| && res[k].Some?
    requires forall j :: k < j < |cfgs| && res[j].Some? ==> cfgs[j].pin != cfgs[k].pin
    ensures cfgs[k].pin in Writes(cfgs, res, last)
    ensures Writes(cfgs, res, last)[cfgs[k].pin] == res[k].value
    decreases |cfgs|
  {
    var n := |cfgs| - 1;
    if k < n {
      WritesLastWins(cfgs[..n], res[..n], last, k);
    }
  }

  /** Commands come out in table order: the pass over `a + b` sends the
      pass over `a` followed by the pass over `b` from the table `a` left. */
  lemma {:induction false} DispatchAppend(a: seq<ServoConfig>, ra: seq<Option<int>>, b: seq<ServoConfig>, rb: seq<Option<int>>, last: map<int, int>)
    requires |ra| == |a| && |rb| == |b|
    ensures Dispatch(a + b, ra + rb, last).angles == Dispatch(b, rb, Dispatch(a, ra, last).angles).angles
    ensures Dispatch(a + b, ra + rb, last).sent ==
      Dispatch(a, ra, last).sent + Dispatch(b, rb, Dispatch(a, ra, last).angles).sent
    decreases |b|
  {
    var pa := Dispatch(a, ra, last);
    if b == [] {
      assert a + b == a && ra + rb == ra;
      assert Dispatch(b, rb, pa.angles) == Pass(pa.angles, []);
    } else {
      var n := |b| - 1;
      DispatchAppend(a, ra, b[..n], rb[..n], last);
      var ab, rab := a + b, ra + rb;
      assert ab[..|ab| - 1] == a + b[..n] && ab[|ab| - 1] == b[n];
      assert rab[..|rab| - 1] == ra + rb[..n] && rab[|rab| - 1] == rb[n];
      var front := Dispatch(a + b[..n], ra + rb[..n], last);
      var tail := Dispatch(b[..n], rb[..n], pa.angles);
      assert Dispatch(ab, rab, last) == Visit(front, b[n], rb[n]);
      assert Dispatch(b, rb, pa.angles) == Visit(tail, b[n], rb[n]);
      VisitShift(tail, pa.sent, b[n], rb[n]);
    }
  }

  /** A visit appends to the commands already sent whatever they are. */
  lemma VisitShift(p: Pass, before: seq<Command>, cfg: ServoConfig, r: Option<int>)
    ensures Visit(Pass(p.angles, before + p.sent), cfg, r) ==
      Pass(Visit(p, cfg, r).angles, before + Visit(p, cfg, r).sent)
  {
    if r.Some? && Changed(p.angles, cfg.pin, r.value) {
      var c := Command(cfg.prefix, cfg.pin, r.value);
      assert (before + p.sent) + [c] == before + (p.sent + [c]);
    }
  }

  /** Every command sent names an entry of the table that resolved to the
      command's angle: no pin absent from the table is ever commanded. */
  lemma {:induction false} SentFromTable(cfgs: seq<ServoConfig>, res: seq<Option<int>>, last: map<int, int>)
    requires |res| == |cfgs|
    ensures forall c :: c in Dispatch(cfgs, res, last).sent ==>
      exists i :: 0 <= i < |cfgs| && res[i] == Some(c.angle) && cfgs[i].pin == c.pin && cfgs[i].prefix == c.prefix
    decreases |cfgs|
  {
    if cfgs != [] {
      var n := |cfgs| - 1;
      SentFromTable(cfgs[..n], res[..n], last);
      forall c | c in Dispatch(cfgs, res, last).sent
        ensures exists i :: 0 <= i < |cfgs| && res[i] == Some(c.angle) && cfgs[i].pin == c.pin && cfgs[i].prefix == c.prefix
      {
        if c in Dispatch(cfgs[..n], res[..n], last).sent {
          var i :| 0 <= i < n && res[..n][i] == Some(c.angle) && cfgs[..n][i].pin == c.pin && cfgs[..n][i].prefix == c.prefix;
          assert res[i] == res[..n][i] && cfgs[i] == cfgs[..n][i];
        } else {
          assert res[n] == Some(c.angle) && cfgs[n].pin == c.pin && cfgs[n].prefix == c.prefix;
        }
      }
    }
  }

  /** A pass sends nothing exactly when every resolved entry already finds
      its angle recorded for its pin; the table is then left as it was. */
  lemma {:induction false} SilentIffAgrees(cfgs: seq<ServoConfig>, res: seq<Option<int>>, last: map<int, int>)
    requires |res| == |cfgs|
    ensures Dispatch(cfgs, res, last).sent == [] <==> Agrees(cfgs, res, last)
    ensures Agrees(cfgs, res, last) ==> Dispatch(cfgs, res, last) == Pass(last, [])
    decreases |cfgs|
  {
    if cfgs != [] {
      var n := |cfgs| - 1;
      var pre, rpre := cfgs[..n], res[..n];
      SilentIffAgrees(pre, rpre, last);
      var p := Dispatch(pre, rpre, last);
      if Dispatch(cfgs, res, last).sent == [] {
        assert p.sent == [];
        assert p == Pass(last, []);
        forall i | 0 <= i < |cfgs| && res[i].Some?
          ensures cfgs[i].pin in last && last[cfgs[i].pin] == res[i].value
        {
          if i < n {
            assert rpre[i] == res[i] && pre[i] == cfgs[i];
          }
        }
      }
      if Agrees(cfgs, res, last) {
        assert Agrees(pre, rpre, last) by {
          forall i | 0 <= i < n && rpre[i].Some?
            ensures pre[i].pin in last && last[pre[i].pin] == rpre[i].value
          {
            assert rpre[i] == res[i] && pre[i] == cfgs[i];
          }
        }
      }
    }
  }

  /** When entries sharing a pin agree, one pass leaves every resolved entry
      finding its own angle recorded. */
  lemma {:induction false} DispatchEstablishes(cfgs: seq<ServoConfig>, res: seq<Option<int>>, last: map<int, int>)
    requires |res| == |cfgs|
    requires Consistent(cfgs, res)
    ensures Agrees(cfgs, res, Dispatch(cfgs, res, last).angles)
    decreases |cfgs|
  {
    if cfgs != [] {
      var n := |cfgs| - 1;
      var pre, rpre := cfgs[..n], res[..n];
      assert Consistent(pre, rpre) by {
        forall i, j | 0 <= i < j < n && rpre[i].Some? && rpre[j].Some? && pre[i].pin == pre[j].pin
          ensures rpre[i] == rpre[j]
        {
          assert rpre[i] == res[i] && rpre[j] == res[j] && pre[i] == cfgs[i] && pre[j] == cfgs[j];
        }
      }
      DispatchEstablishes(pre, rpre, last);
      var p := Dispatch(pre, rpre, last);
      var q := Dispatch(cfgs, res, last);
      forall i | 0 <= i < |cfgs| && res[i].Some?
        ensures cfgs[i].pin in q.angles && q.angles[cfgs[i].pin] == res[i].value
      {
        if i < n {
          assert rpre[i] == res[i] && pre[i] == cfgs[i];
          if res[n].Some? && cfgs[n].pin == cfgs[i].pin {
            assert res[i] == res[n];
          }
        }
      }
    }
  }

  /** Re-running a cycle that yields the same resolutions sends nothing, from
      any starting table, exactly when entries sharing a pin agree. */
  lemma RepeatSilentIffConsistent(cfgs: seq<ServoConfig>, res: seq<Option<int>>, last: map<int, int>)
    requires |res| == |cfgs|
    ensures Dispatch(cfgs, res, Dispatch(cfgs, res, last).angles).sent == [] <==> Consistent(cfgs, res)
  {
    var after := Dispatch(cfgs, res, last).angles;
    SilentIffAgrees(cfgs, res, after);
    if Consistent(cfgs, res) {
      DispatchEstablishes(cfgs, res, last);
    } else {
      var i, j :| 0 <= i < j < |cfgs| && res[i].Some? && res[j].Some? && cfgs[i].pin == cfgs[j].pin && res[i] != res[j];
      assert !Agrees(cfgs, res, after);
    }
  }

  /** Because the table is keyed by pin alone, the `U` and `F` entries on pin 5
      resolving to different angles resend both commands on every cycle,
      although nothing moved. */
  lemma SharedPinResends()
    ensures var cfgs := [DefaultConfigs[0], DefaultConfigs[16]];
            var res := [Some(45), Some(70)];
            var first := Dispatch(cfgs, res, map[]);
            Dispatch(cfgs, res, first.angles).sent == [Command("U", 5, 45), Command("F", 5, 70)]
  {
    var u, f := DefaultConfigs[0], DefaultConfigs[16];
    DefaultTableSharesPin5();
    var cfgs, res := [u, f], [Some(45), Some(70)];
    assert cfgs[..1] == [u] && res[..1] == [Some(45)];
    assert [u][..0] == [] && [Some(45)][..0] == [];
    var empty: seq<ServoConfig>, none: seq<Option<int>> := [], [];
    assert Dispatch([u], [Some(45)], map[]) == Visit(Dispatch(empty, none, map[]), u, Some(45));
    var one := Dispatch([u], [Some(45)], map[]);
    assert one == Pass(map[5 := 45], [Command("U", 5, 45)]);
    var first := Dispatch(cfgs, res, map[]);
    assert first.angles == map[5 := 70];
    assert Dispatch([u], [Some(45)], first.angles) == Visit(Dispatch(empty, none, first.angles), u, Some(45));
    var again := Dispatch([u], [Some(45)], first.angles);
    assert again == Pass(map[5 := 45], [Command("U", 5, 45)]);
  }

  /** The dispatch state that outlives a cycle. */
  datatype State = State(lastAngles: map<int, int>, lastSentTime: int)

  /** One `watchEffect` run on snapshot `lm` at time `now`: a snapshot that is
      absent or short, or one arriving within 15 ms of the last processed
      one, changes nothing and sends nothing; otherwise the time is recorded
      before the table is walked, whatever the walk then sends. */
  function Cycle(st: State, cfgs: seq<ServoConfig>, lm: Snapshot, now: int, num: Numerics): (r: (State, seq<Command>))
    requires AllWellFormed(cfgs)
    requires Ready(lm) && now - st.lastSentTime >= MinInterval ==> FrameOf(num, lm.value).dRef > 0.0
    ensures !Ready(lm) ==> r == (st, [])
    ensures Ready(lm) && now - st.lastSentTime < MinInterval ==> r == (st, [])
    ensures Ready(lm) && now - st.lastSentTime >= MinInterval ==>
      r.0.lastSentTime == now && |r.1| <= |cfgs|
  {
    if !Ready(lm) then (st, [])
    else if now - st.lastSentTime < MinInterval then (st, [])
    else
      var f := FrameOf(num, lm.value);
      var p := Dispatch(cfgs, ResolveAll(num, lm.value, f, cfgs), st.lastAngles);
      (State(p.angles, now), p.sent)
  }

  /** Two processed cycles on the same snapshot: the second sends nothing
      exactly when the table's entries sharing a pin agree on it. */
  lemma CycleRepeatSilent(st: State, cfgs: seq<ServoConfig>, lm: Snapshot, t1: int, t2: int, num: Numerics)
    requires AllWellFormed(cfgs)
    requires Ready(lm) && FrameOf(num, lm.value).dRef > 0.0
    requires t1 - st.lastSentTime >= MinInterval && t2 - t1 >= MinInterval
    ensures Cycle(Cycle(st, cfgs, lm, t1, num).0, cfgs, lm, t2, num).1 == [] <==>
      Consistent(cfgs, ResolveAll(num, lm.value, FrameOf(num, lm.value), cfgs))
  {
    RepeatSilentIffConsistent(cfgs, ResolveAll(num, lm.value, FrameOf(num, lm.value), cfgs), st.lastAngles);
  }

  /** A cycle only ever commands pins of the current table: after a table
      swap that drops a pin, that pin receives no further command. */
  lemma CycleCommandsTablePins(st: State, cfgs: seq<ServoConfig>, lm: Snapshot, now: int, num: Numerics, pin: int)
    requires AllWellFormed(cfgs)
    requires Ready(lm) && now - st.lastSentTime >= MinInterval ==> FrameOf(num, lm.value).dRef > 0.0
    requires forall i :: 0 <= i < |cfgs| ==> cfgs[i].pin != pin
    ensures forall c :: c in Cycle(st, cfgs, lm, now, num).1 ==> c.pin != pin
  {
    if Ready(lm) && now - st.lastSentTime >= MinInterval {
      SentFromTable(cfgs, ResolveAll(num, lm.value, FrameOf(num, lm.value), cfgs), st.lastAngles);
    }
  }

  /** Every command a cycle sends carries an angle inside the range of an
      entry of the current table with the same pin and prefix: no servo is
      ever driven past its calibrated end. */
  lemma CycleAnglesInRange(st: State, cfgs: seq<ServoConfig>, lm: Snapshot, now: int, num: Numerics)
    requires AllWellFormed(cfgs)
    requires Ready(lm) && now - st.lastSentTime >= MinInterval ==> FrameOf(num, lm.value).dRef > 0.0
    ensures forall c :: c in Cycle(st, cfgs, lm, now, num).1 ==>
      exists i :: 0 <= i < |cfgs| && cfgs[i].pin == c.pin && cfgs[i].prefix == c.prefix &&
        MinInt(cfgs[i].closed, cfgs[i].open) <= c.angle <= MaxInt(cfgs[i].closed, cfgs[i].open)
  {
    if Ready(lm) && now - st.lastSentTime >= MinInterval {
      var res := ResolveAll(num, lm.value, FrameOf(num, lm.value), cfgs);
      SentFromTable(cfgs, res, st.lastAngles);
    }
  }
}
