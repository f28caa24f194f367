/**
 * The appliance record the controllers work on and the control command they compose.
 * A `Device` is shared by reference between the registry, the push channel and the controllers;
 * its snapshot is updated in place.
 */
module Appliance {
  import opened JsValues

  /** The device object. `snapshot` is the raw property snapshot, `deviceModel` the loaded schema. */
  class Device {
    const id: string
    var snapshot: Snapshot
    var deviceModel: Value

    constructor (id: string, snapshot: Snapshot)
      ensures this.id == id && this.snapshot == snapshot && deviceModel == Undef
    {
      this.id := id;
      this.snapshot := snapshot;
      deviceModel := Undef;
    }
  }

  /** The `command` field of a control request. */
  datatype CommandKind = Set | Operation

  /** The default control group. */
  const BASIC_CTRL := "basicCtrl"
  /** The control group of batched writes. */
  const FAVORITE_CTRL := "favoriteCtrl"

  /** One `deviceControl(id, values, command, ctrlKey)` call. */
  datatype Command = Command(deviceId: string, values: map<string, Value>, command: CommandKind, ctrlKey: string)

  /** `{dataKey, dataValue}`: a single-property write. */
  function SingleWrite(key: string, v: Value): map<string, Value> {
    map["dataKey" := Str(key), "dataValue" := v]
  }

  /** `{dataKey: null, dataValue: null, dataSetList, dataGetList: null}`: a batched write. */
  function BatchWrite(setList: map<string, Value>): map<string, Value> {
    map["dataKey" := Null, "dataValue" := Null, "dataSetList" := Obj(setList), "dataGetList" := Null]
  }

  /** A basic-group `Set` of one property, the most common command. */
  function SetCommand(id: string, key: string, v: Value): Command {
    Command(id, SingleWrite(key, v), Set, BASIC_CTRL)
  }

  /** What one setter call does: the commands it dispatches, in order, and the snapshot after it. */
  datatype Step = Step(sent: seq<Command>, data: Snapshot)

  /** The setter returned before dispatching anything. */
  function NoOp(data: Snapshot): Step {
    Step([], data)
  }

  /** One setter followed by another that starts from the snapshot the first left. */
  function Then(first: Step, second: Step): Step {
    Step(first.sent + second.sent, second.data)
  }

  /**
   * The properties a command writes, read back from its body: the `dataSetList` of a batched
   * write, or the single `dataKey`/`dataValue` pair.
   */
  function Writes(c: Command): map<string, Value> {
    if "dataSetList" in c.values && c.values["dataSetList"].Obj? then c.values["dataSetList"].fields
    else if "dataKey" in c.values && c.values["dataKey"].Str? && "dataValue" in c.values then
      map[c.values["dataKey"].s := c.values["dataValue"]]
    else map[]
  }

  /** No command in `cmds` writes `key`. */
  predicate Unwritten(cmds: seq<Command>, key: string) {
    forall i :: 0 <= i < |cmds| ==> key !in Writes(cmds[i])
  }

  /** The snapshot after each command's writes are applied in order: the optimistic write-back. */
  function Replay(data: Snapshot, cmds: seq<Command>): Snapshot
    decreases |cmds|
  {
    if cmds == [] then data else Replay(data + Writes(cmds[0]), cmds[1..])
  }

  lemma {:induction false} ReplayAppend(data: Snapshot, a: seq<Command>, b: seq<Command>)
    ensures Replay(data, a + b) == Replay(Replay(data, a), b)
    decreases |a|
  {
    if a == [] {
      assert a + b == b;
    } else {
      assert (a + b)[0] == a[0];
      assert (a + b)[1..] == a[1..] + b;
      ReplayAppend(data + Writes(a[0]), a[1..], b);
    }
  }

  /** A property no command writes keeps its value, and no property is dropped. */
  lemma {:induction false} ReplayKeepsUnwritten(data: Snapshot, cmds: seq<Command>, key: string)
    requires Unwritten(cmds, key)
    ensures data.Keys <= Replay(data, cmds).Keys
    ensures Get(Replay(data, cmds), key) == Get(data, key)
    decreases |cmds|
  {
    if cmds != [] {
      assert key !in Writes(cmds[0]);
      assert Unwritten(cmds[1..], key) by {
        forall i | 0 <= i < |cmds[1..]| ensures key !in Writes(cmds[1..][i]) {
          assert cmds[1..][i] == cmds[i + 1];
        }
      }
      ReplayKeepsUnwritten(data + Writes(cmds[0]), cmds[1..], key);
    }
  }

  /** The last command's writes are what the replayed snapshot holds for its properties. */
  lemma ReplayLastWriteWins(data: Snapshot, cmds: seq<Command>, key: string)
    requires cmds != [] && key in Writes(cmds[|cmds| - 1])
    ensures Get(Replay(data, cmds), key) == Writes(cmds[|cmds| - 1])[key]
  {
    var front, last := cmds[..|cmds| - 1], cmds[|cmds| - 1];
    assert cmds == front + [last];
    ReplayAppend(data, front, [last]);
    var mid := Replay(data, front);
    assert Replay(mid, [last]) == Replay(mid + Writes(last), []);
  }

  /** Sequencing keeps "the snapshot is the replay of what was sent". */
  lemma ThenReplays(data: Snapshot, first: Step, second: Step)
    requires first.data == Replay(data, first.sent)
    requires second.data == Replay(first.data, second.sent)
    ensures Then(first, second).data == Replay(data, Then(first, second).sent)
  {
    ReplayAppend(data, first.sent, second.sent);
  }

  /** Dispatch one single-property `Set` and write the same value into the snapshot. */
  function WriteOne(id: string, data: Snapshot, key: string, v: Value): (r: Step)
    ensures r.data == Replay(data, r.sent)
    ensures |r.sent| == 1 && Writes(r.sent[0]) == map[key := v]
  {
    var c := SetCommand(id, key, v);
    assert Writes(c) == map[key := v];
    assert data + map[key := v] == data[key := v];
    assert c.values.Keys == {"dataKey", "dataValue"};
    Step([c], data[key := v])
  }

  /** Only the keys in `keys` may differ between the two snapshots. */
  ghost predicate OnlyChanged(before: Snapshot, after: Snapshot, keys: set<string>) {
    forall k :: k !in keys ==> Get(after, k) == Get(before, k)
  }
}
