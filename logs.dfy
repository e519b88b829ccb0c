/** Log extraction from simulation replies: the optional-chaining and `??`
    chains at jupitor-swaps/src/index.js:238, 250, 276 and 291. */
module SimulationLogs {
  import opened Wrappers

  /** A log list: the lines a simulation printed, possibly none. */
  type Logs = seq<string>

  /** A JSON reply as far as log extraction reads it: an object with
      optional `result`, `value` and `logs` fields (`None` when nullish). A
      non-object value reads as an object with none of them. */
  datatype Reply = Reply(result: Option<Reply>, value: Option<Reply>, logs: Option<Logs>)

  /** A field step of a path. */
  datatype Field = ResultField | ValueField

  /** `x?.f1?.f2...`: the object at the end of a path, `None` as soon as a
      step is nullish. */
  function Lookup(j: Reply, path: seq<Field>): Option<Reply>
    decreases |path|
  {
    if path == [] then Some(j)
    else
      var next := if path[0] == ResultField then j.result else j.value;
      match next
      case None => None
      case Some(o) => Lookup(o, path[1..])
  }

  /** `x?.f1?...?.logs`. */
  function LogsAt(j: Reply, path: seq<Field>): Option<Logs>
  {
    match Lookup(j, path)
    case None => None
    case Some(o) => o.logs
  }

  /** `a ?? b`: the left side unless it is nullish. An empty list is not
      nullish. */
  function Coalesce(a: Option<Logs>, b: Option<Logs>): Option<Logs>
  {
    if a.Some? then a else b
  }

  /** The logs at the first path that has them, the reference definition of
      a `??` chain over paths. */
  function FirstPresent(j: Reply, paths: seq<seq<Field>>): Option<Logs>
  {
    if paths == [] then None
    else if LogsAt(j, paths[0]).Some? then LogsAt(j, paths[0])
    else FirstPresent(j, paths[1..])
  }

  /** A `??` chain finds logs exactly when some path has them, and then
      returns those of the first such path. */
  lemma {:induction false} FirstPresentIsFirst(j: Reply, paths: seq<seq<Field>>)
    ensures FirstPresent(j, paths).Some? <==> exists i :: 0 <= i < |paths| && LogsAt(j, paths[i]).Some?
    ensures FirstPresent(j, paths).Some? ==>
      exists i :: (0 <= i < |paths| && FirstPresent(j, paths) == LogsAt(j, paths[i]) &&
                   forall k :: 0 <= k < i ==> LogsAt(j, paths[k]).None?)
  {
    if paths != [] && LogsAt(j, paths[0]).None? {
      FirstPresentIsFirst(j, paths[1..]);
      assert forall i :: 1 <= i < |paths| ==> paths[i] == paths[1..][i - 1];
      if FirstPresent(j, paths).Some? {
        var i :| 0 <= i < |paths[1..]| && FirstPresent(j, paths[1..]) == LogsAt(j, paths[1..][i]) &&
                 forall k :: 0 <= k < i ==> LogsAt(j, paths[1..][k]).None?;
        assert FirstPresent(j, paths) == LogsAt(j, paths[i + 1]);
      }
    } else if paths != [] {
      assert FirstPresent(j, paths) == LogsAt(j, paths[0]);
    }
  }

  /** The three fallback paths in the order they are tried:
      `result.value.logs`, `result.logs`, `value.logs`. */
  const FallbackPaths: seq<seq<Field>> := [[ResultField, ValueField], [ResultField], [ValueField]]

  /** Lines 250 and 291: `j.result?.value?.logs ?? j?.result?.logs ?? j?.value?.logs`. */
  function FallbackLogs(j: Reply): (r: Option<Logs>)
    ensures r == FirstPresent(j, FallbackPaths)
  {
    var resultValueLogs :=
      match j.result
      case None => None
      case Some(res) => (match res.value case None => None case Some(v) => v.logs);
    var resultLogs := match j.result case None => None case Some(res) => res.logs;
    var valueLogs := match j.value case None => None case Some(v) => v.logs;
    var r := Coalesce(Coalesce(resultValueLogs, resultLogs), valueLogs);
    var p := FallbackPaths;
    assert [ResultField, ValueField][1..][1..] == [] && [ResultField][1..] == [] && [ValueField][1..] == [];
    assert LogsAt(j, p[0]) == resultValueLogs;
    assert LogsAt(j, p[1]) == resultLogs;
    assert LogsAt(j, p[2]) == valueLogs;
    assert p[1..][1..][1..] == [];
    assert FirstPresent(j, p[1..][1..]) == valueLogs;
    assert FirstPresent(j, p[1..]) == Coalesce(resultLogs, valueLogs);
    r
  }

  /** Line 276: `sim.value?.logs ?? sim?.logs ?? null`. */
  function UnsignedPrimaryLogs(sim: Reply): (r: Option<Logs>)
    ensures r == FirstPresent(sim, [[ValueField], []])
  {
    var valueLogs := match sim.value case None => None case Some(v) => v.logs;
    var r := Coalesce(valueLogs, sim.logs);
    var p := [[ValueField], []];
    assert p[0][1..] == [] && p[1..][1..] == [];
    assert LogsAt(sim, p[0]) == valueLogs;
    assert LogsAt(sim, p[1]) == sim.logs;
    assert FirstPresent(sim, p[1..][1..]) == None;
    assert FirstPresent(sim, p[1..]) == sim.logs;
    r
  }

  /** Line 238: the signed path reads only `sim.value?.logs`. */
  function SignedPrimaryLogs(sim: Reply): (r: Option<Logs>)
    ensures r == LogsAt(sim, [ValueField])
  {
    match sim.value
    case None => None
    case Some(v) => v.logs
  }

  /** An empty log list at an earlier fallback path still wins over later
      paths. */
  lemma EmptyEarlierLogsWin(j: Reply)
    requires LogsAt(j, [ResultField, ValueField]) == Some([])
    ensures FallbackLogs(j) == Some([])
  {
  }

  /** The fallback finds logs exactly when one of its three paths has them,
      and then takes the first such path. */
  lemma FallbackLogsOrder(j: Reply)
    ensures FallbackLogs(j).None? <==>
      LogsAt(j, [ResultField, ValueField]).None? && LogsAt(j, [ResultField]).None? &&
      LogsAt(j, [ValueField]).None?
    ensures LogsAt(j, [ResultField, ValueField]).Some? ==>
      FallbackLogs(j) == LogsAt(j, [ResultField, ValueField])
    ensures LogsAt(j, [ResultField, ValueField]).None? && LogsAt(j, [ResultField]).Some? ==>
      FallbackLogs(j) == LogsAt(j, [ResultField])
    ensures LogsAt(j, [ResultField, ValueField]).None? && LogsAt(j, [ResultField]).None? ==>
      FallbackLogs(j) == LogsAt(j, [ValueField])
  {
  }
}
