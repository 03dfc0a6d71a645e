/** The face-control service as the module holds it: the replaceable servo
    table, the last angle sent per pin, the time of the last processed
    snapshot, and the handler run on every new snapshot. `sendCommand`
    appears only as the lines appended to the ghost log `log`. */
module FaceControl {
  import opened Base
  import opened Geometry
  import opened Landmarks
  import opened ServoTable
  import opened Commands
  import opened Resolver
  import opened Scheduler

  /** The lines handed to the serial link for a sequence of commands, in
      order; each line reads back to its command, so the log determines
      exactly what was commanded. */
  function Formatted(cs: seq<Command>): (lines: seq<string>)
    ensures |lines| == |cs|
    ensures forall k :: 0 <= k < |cs| ==> lines[k] == Format(cs[k])
    ensures forall k :: 0 <= k < |cs| && ':' !in cs[k].prefix ==> Parse(lines[k]) == Some(cs[k])
  {
    ReadBackAll();
    seq(|cs|, k requires 0 <= k < |cs| => Format(cs[k]))
  }

  lemma FormattedSnoc(cs: seq<Command>, c: Command)
    ensures Formatted(cs + [c]) == Formatted(cs) + [Format(c)]
  {
  }

  class Controller {
    var servoConfigs: seq<ServoConfig>
    var lastAngles: map<int, int>
    var lastSentTime: int
    ghost var log: seq<string>

    ghost predicate Valid()
      reads this
    {
      AllWellFormed(servoConfigs)
    }

    function DispatchState(): State
      reads this
    {
      State(lastAngles, lastSentTime)
    }

    /** The module's initial state: the default table, no pin sent yet
        (every initial pin maps to `null`), time 0. */
    constructor ()
      ensures Valid()
      ensures servoConfigs == DefaultConfigs
      ensures lastAngles == map[] && lastSentTime == 0 && log == []
    {
      DefaultTableSound();
      servoConfigs := DefaultConfigs;
      lastAngles := map[];
      lastSentTime := 0;
      log := [];
    }

    /** `setConfig`: swaps the table and keeps the per-pin history. */
    method SetConfig(config: seq<ServoConfig>)
      requires AllWellFormed(config)
      modifies this
      ensures Valid()
      ensures servoConfigs == config
      ensures lastAngles == old(lastAngles) && lastSentTime == old(lastSentTime) && log == old(log)
    {
      servoConfigs := config;
    }

    /** `getConfig` */
    method GetConfig() returns (config: seq<ServoConfig>)
      ensures config == servoConfigs
    {
      config := servoConfigs;
    }

    /** The second half of the loop body for entry `cfg` with resolution
        `r`: when the angle differs from the one recorded for the pin, send
        the command and record the angle. `sent` and `base` are the commands
        sent so far in the cycle and the log before it. */
    method Apply(cfg: ServoConfig, r: Option<int>, ghost base: seq<string>, ghost sent: seq<Command>)
      returns (ghost sent': seq<Command>)
      requires log == base + Formatted(sent)
      modifies this
      ensures servoConfigs == old(servoConfigs) && lastSentTime == old(lastSentTime)
      ensures Pass(lastAngles, sent') == Visit(Pass(old(lastAngles), sent), cfg, r)
      ensures log == base + Formatted(sent')
    {
      sent' := sent;
      if r.Some? {
        var angle := r.value;
        if Changed(lastAngles, cfg.pin, angle) {
          var command := Command(cfg.prefix, cfg.pin, angle);
          FormattedSnoc(sent, command);
          log := log + [Format(command)];
          sent' := sent + [command];
          lastAngles := lastAngles[cfg.pin := angle];
        }
      }
    }

    /** The `watchEffect` handler, run once on snapshot `lm` at time `now`
        (the value `Date.now()` would return) with the library numerics
        `num`. Its effect is `Cycle`'s: the gates, then the walk over the
        table in order, logging a line for each changed angle. */
    method OnSnapshot(lm: Snapshot, now: int, num: Numerics)
      requires Valid()
      requires Ready(lm) && now - lastSentTime >= MinInterval ==> FrameOf(num, lm.value).dRef > 0.0
      modifies this
      ensures Valid() && servoConfigs == old(servoConfigs)
      ensures DispatchState() == Cycle(old(DispatchState()), servoConfigs, lm, now, num).0
      ensures log == old(log) + Formatted(Cycle(old(DispatchState()), servoConfigs, lm, now, num).1)
    {
      if lm.None? || |lm.value| < MinLandmarks {
        return;
      }
      if now - lastSentTime < MinInterval {
        return;
      }
      lastSentTime := now;

      var snapshot := lm.value;
      var f := FrameOf(num, snapshot);
      ghost var res := ResolveAll(num, snapshot, f, servoConfigs);
      ghost var sent: seq<Command> := [];
      var cfgs := servoConfigs;
      var i := 0;
      while i < |cfgs|
        invariant 0 <= i <= |cfgs|
        invariant cfgs == servoConfigs && lastSentTime == now
        invariant Pass(lastAngles, sent) == Dispatch(cfgs[..i], res[..i], old(lastAngles))
        invariant log == old(log) + Formatted(sent)
      {
        var r := Resolve(num, snapshot, f, cfgs[i]);
        DispatchStep(cfgs, res, old(lastAngles), i);
        sent := Apply(cfgs[i], r, old(log), sent);
        i := i + 1;
      }
      assert cfgs[..i] == cfgs && res[..i] == res;
    }
  }
}
