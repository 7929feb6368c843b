/**
 * The policy lookup table: a fixed, ordered table from display name to
 * scheduling policy, looked up by name and listed in its order; and the call
 * of the chosen policy's engine on a list of processes.
 */
module Factory {
  import opened Models
  import opened Trace
  import opened Metrics
  import Fifo
  import Sjf
  import Srtf
  import RoundRobin

  /** The four scheduling policies; creating one makes a fresh engine with no state of its own. */
  datatype Policy = FifoPolicy | SjfPolicy | SrtfPolicy | RoundRobinPolicy

  /** The table from display name to policy, in its insertion order. Nothing changes it. */
  const Strategies: seq<(string, Policy)> :=
    [("FIFO", FifoPolicy), ("SJF", SjfPolicy), ("SRTF", SrtfPolicy), ("Round Robin", RoundRobinPolicy)]

  /** `table.get(name)`: the policy of the first entry called `name`, if any. */
  function Lookup(table: seq<(string, Policy)>, name: string): (r: Option<Policy>)
    ensures r.Some? <==> exists i :: 0 <= i < |table| && table[i].0 == name
    ensures r.Some? ==> exists i :: 0 <= i < |table| && table[i] == (name, r.value)
  {
    if table == [] then None
    else if table[0].0 == name then Some(table[0].1)
    else
      var r := Lookup(table[1..], name);
      assert forall i :: 0 < i < |table| ==> table[i] == table[1..][i - 1];
      r
  }

  /** The keys of a table, in its order. */
  function Keys(table: seq<(string, Policy)>): (ks: seq<string>)
    ensures |ks| == |table| && forall i :: 0 <= i < |table| ==> ks[i] == table[i].0
  {
    if table == [] then [] else [table[0].0] + Keys(table[1..])
  }

  /** `create(name)`: the listed policy of that name, or nothing for any other name. */
  function Create(name: string): Option<Policy>
  {
    Lookup(Strategies, name)
  }

  /** `list_algorithms()`: the table's names in its order. */
  function ListAlgorithms(): seq<string>
  {
    Keys(Strategies)
  }

  /** The listed names are exactly these four, in this order, and no two are the same. */
  lemma ListAlgorithmsExact()
    ensures ListAlgorithms() == ["FIFO", "SJF", "SRTF", "Round Robin"]
    ensures forall i, j :: 0 <= i < j < |ListAlgorithms()| ==> ListAlgorithms()[i] != ListAlgorithms()[j]
  {
  }

  /** A name creates a policy exactly when it is listed. */
  lemma CreateListed(name: string)
    ensures Create(name).Some? <==> name in ListAlgorithms()
  {
    if name in ListAlgorithms() {
      var i :| 0 <= i < |ListAlgorithms()| && ListAlgorithms()[i] == name;
      assert Strategies[i].0 == name;
    }
  }

  /** Each listed name creates its own policy, so different names give different policies. */
  lemma CreateEach()
    ensures Create("FIFO") == Some(FifoPolicy) && Create("SJF") == Some(SjfPolicy)
    ensures Create("SRTF") == Some(SrtfPolicy) && Create("Round Robin") == Some(RoundRobinPolicy)
  {
  }

  /** Every policy is reached by exactly one listed name. */
  lemma CreateOnto(p: Policy)
    ensures exists i :: 0 <= i < |ListAlgorithms()| && Create(ListAlgorithms()[i]) == Some(p)
    ensures forall name :: Create(name) == Some(p) ==> name == NameOf(p)
  {
    CreateEach();
    ListAlgorithmsExact();
    forall name | Create(name) == Some(p) ensures name == NameOf(p) {
      var i :| 0 <= i < |Strategies| && Strategies[i] == (name, p);
    }
  }

  /** The display name under which the table lists a policy. */
  function NameOf(p: Policy): (name: string)
    ensures Create(name) == Some(p)
  {
    match p
    case FifoPolicy => "FIFO"
    case SjfPolicy => "SJF"
    case SrtfPolicy => "SRTF"
    case RoundRobinPolicy => "Round Robin"
  }

  /**
   * `strategy.schedule(processes, quantum)` on the policy `create` returned:
   * FIFO, SJF and SRTF ignore the quantum; Round Robin gives no result
   * without a positive one. Every result carries the outcome its engine
   * promises, a Round Robin one over the input sorted by arrival.
   */
  method Dispatch(policy: Policy, procs: seq<Process>, quantum: Option<int>) returns (r: Option<ScheduleResult>)
    requires ValidInput(procs)
    ensures r.None? <==> policy == RoundRobinPolicy && (quantum.None? || quantum.value <= 0)
    ensures r.Some? && policy == FifoPolicy ==> Fifo.Outcome(procs, r.value)
    ensures r.Some? && policy == SjfPolicy ==> Sjf.Outcome(procs, r.value)
    ensures r.Some? && policy == SrtfPolicy && procs != [] ==> Srtf.Outcome(procs, r.value)
    ensures r.Some? && policy == RoundRobinPolicy && procs != [] ==>
      RoundRobin.Outcome(RoundRobin.ByArrival(procs), quantum.value, r.value)
    ensures r.Some? && (policy == SrtfPolicy || policy == RoundRobinPolicy) && procs == [] ==> r.value == EmptyResult()
  {
    match policy
    case FifoPolicy =>
      var res := Fifo.Schedule(procs);
      r := Some(res);
    case SjfPolicy =>
      var res := Sjf.Schedule(procs);
      r := Some(res);
    case SrtfPolicy =>
      var res := Srtf.Schedule(procs);
      r := Some(res);
    case RoundRobinPolicy =>
      r := RoundRobin.Schedule(procs, quantum);
  }
}
