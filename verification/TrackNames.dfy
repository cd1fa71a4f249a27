/** How the tracks of a file are named, ranked and grouped, said of the calls in its log
    and of uuids as numbers. */
module TrackNames {
  import opened Seqs
  import opened Output
  import opened Chunks
  import opened TracePackets
  import opened PerfettoWriter

  // ---- a thread's tracks ----

  /** Below the group of thread `t`, and in this order: scheduling, the GIL, GPU calls,
      call stacks. */
  lemma TracksAreShown(r: Rendering, packets: seq<Packet>, names: map<nat, string>, owners: map<nat, nat>,
                       i: nat, t: int)
    requires Closed(packets) && Presented(r, packets, names, owners)
    requires i < |packets| && packets[i].Descriptor? && 0 <= t < 10_000_000
    ensures var p := packets[i];
            && (p.uuid == 200_000_000 + t ==> p.name == r.title(SchedTitle(t)) && p.rank == -100)
            && (p.uuid == 300_000_000 + t ==> p.name == r.title(GilTitle(t)) && p.rank == -50)
            && (p.uuid == 400_000_000 + t ==> p.name == r.title(GpuTitle(t)) && p.rank == -25)
            && (p.uuid == 100_000_000 + t ==> p.name == r.title(StacksTitle(t)) && p.rank == 0)
            && (p.uuid in {100_000_000 + t, 200_000_000 + t, 300_000_000 + t, 400_000_000 + t} ==>
                  p.parent == 600_000_000 + t && !p.explicit)
            && (p.uuid == 600_000_000 + t ==>
                  p.explicit && p.rank == 0 && p.uuid in owners && p.parent == owners[p.uuid])
            && (p.uuid < 100_000_000 ==> p.explicit && p.rank == 0 && p.parent == 0)
  {
    TidyPrefix(packets, i);
    assert packets[i] in packets;
    hide Tidy, Needed, Described;
  }

  // ---- names given ----

  predicate IsNamingEntry(e: Entry) {
    !e.Counter? && (e.call.Metadata? || (e.call.Viz? && e.call.ph == 'M'))
  }

  function NamesProcess(r: Rendering, pid: int): Entry -> bool {
    (e: Entry) => IsNamingEntry(e) && r.text(e.call.name) == "process_name" && e.call.pid == pid
  }

  /** Names given to the tids of synthetic tracks are ignored. */
  function NamesThread(r: Rendering, t: int): Entry -> bool {
    (e: Entry) => IsNamingEntry(e) && r.text(e.call.name) == "thread_name" && e.call.tid == t
  }

  /** The last entry of a kind. */
  function LastOf(keep: Entry -> bool, log: seq<Entry>): Option<Entry> {
    if log == [] then None else if keep(Last(log)) then Some(Last(log)) else LastOf(keep, Init(log))
  }

  function FirstOf(keep: Entry -> bool, log: seq<Entry>): Option<Entry> {
    if log == [] then None
    else if FirstOf(keep, Init(log)).Some? then FirstOf(keep, Init(log))
    else if keep(Last(log)) then Some(Last(log)) else None
  }

  lemma {:induction false} LastOfMeans(keep: Entry -> bool, log: seq<Entry>)
    ensures LastOf(keep, log).None? ==> forall i :: 0 <= i < |log| ==> !keep(log[i])
    ensures LastOf(keep, log).Some? ==>
              exists i :: 0 <= i < |log| && keep(log[i]) && log[i] == LastOf(keep, log).value &&
                          forall k :: i < k < |log| ==> !keep(log[k])
  {
    if log != [] {
      var front := Init(log);
      LastOfMeans(keep, front);
      if !keep(Last(log)) && LastOf(keep, front).Some? {
        var i :| 0 <= i < |front| && keep(front[i]) && front[i] == LastOf(keep, front).value &&
                 forall k :: i < k < |front| ==> !keep(front[k]);
        assert keep(log[i]) && forall k :: i < k < |front| ==> log[k] == front[k];
      } else if keep(Last(log)) {
        assert keep(log[|log| - 1]);
      }
    }
  }

  lemma {:induction false} FirstOfMeans(keep: Entry -> bool, log: seq<Entry>)
    ensures FirstOf(keep, log).None? ==> forall i :: 0 <= i < |log| ==> !keep(log[i])
    ensures FirstOf(keep, log).Some? ==>
              exists i :: 0 <= i < |log| && keep(log[i]) && log[i] == FirstOf(keep, log).value &&
                          forall k :: 0 <= k < i ==> !keep(log[k])
  {
    if log != [] {
      var front := Init(log);
      FirstOfMeans(keep, front);
      if FirstOf(keep, front).Some? {
        var i :| 0 <= i < |front| && keep(front[i]) && front[i] == FirstOf(keep, front).value &&
                 forall k :: 0 <= k < i ==> !keep(front[k]);
        assert keep(log[i]) && forall k :: 0 <= k < i ==> log[k] == front[k];
      } else if keep(Last(log)) {
        assert keep(log[|log| - 1]) && forall k :: 0 <= k < |front| ==> log[k] == front[k];
      }
    }
  }

  lemma BoundedUuids(e: Entry)
    requires IdsBounded(e) && !e.Counter?
    ensures 0 <= e.call.pid < 100_000_000 && Uuid(Process(e.call.pid)) == e.call.pid
    ensures e.call.tid < 100_000_000 ==>
              0 <= e.call.tid < 10_000_000 && Uuid(ThreadGroup(e.call.tid)) == 600_000_000 + e.call.tid
  {
    UuidRoundTrip(Process(e.call.pid));
  }

  /** The arguments that a naming entry gives the name in. */
  function NameGiven(e: Entry): Args {
    if IsNamingEntry(e) then e.call.args else NoArgs
  }

  /** A naming entry gives one name or none, and changes no other. */
  lemma EntryNamesMean(r: Rendering, names: map<nat, string>, e: Entry)
    requires IdsBounded(e)
    ensures !IsNamingEntry(e) ==> EntryNames(r, names, e) == names
    ensures IsNamingEntry(e) ==>
              var pid, tid, after := e.call.pid, e.call.tid, EntryNames(r, names, e);
              && (r.text(e.call.name) == "process_name" ==>
                    pid >= 0 && after == names[pid := r.title(Given(NameGiven(e), pid))])
              && (r.text(e.call.name) == "thread_name" && tid < 100_000_000 ==>
                    0 <= tid < 10_000_000 && after == names[600_000_000 + tid := r.title(Given(NameGiven(e), tid))])
              && (r.text(e.call.name) == "thread_name" && tid >= 100_000_000 ==> after == names)
              && (r.text(e.call.name) != "process_name" && r.text(e.call.name) != "thread_name" ==> after == names)
  {
    if !e.Counter? {
      BoundedUuids(e);
      hide Uuid, TrackOf, OfUuid;
    }
  }

  /** A process or thread group has the last name given to it in the log, if any. */
  lemma {:induction false} LastNameCounts(r: Rendering, log: seq<Entry>, pid: nat, t: nat)
    requires (forall e :: e in log ==> IdsBounded(e)) && pid < 100_000_000 && t < 10_000_000
    ensures var last, names := LastOf(NamesProcess(r, pid), log), NamesGiven(r, log);
            && (pid in names <==> last.Some?)
            && (last.Some? ==> names[pid] == r.title(Given(NameGiven(last.value), pid)))
    ensures var last, names, u := LastOf(NamesThread(r, t), log), NamesGiven(r, log), 600_000_000 + t;
            && (u in names <==> last.Some?)
            && (last.Some? ==> names[u] == r.title(Given(NameGiven(last.value), t)))
  {
    if log != [] {
      var front, e := Init(log), Last(log);
      assert forall x :: x in front ==> x in log;
      LastNameCounts(r, front, pid, t);
      if !e.Counter? {
        BoundedUuids(e);
      }
      EntryNamesMean(r, NamesGiven(r, front), e);
      hide EntryNames, IdsBounded, Uuid, NameGiven;
    }
  }

  /** So a group is shown under the last name given to it, or else as a placeholder. */
  lemma GroupsAreNamed(r: Rendering, log: seq<Entry>, packets: seq<Packet>, p: Packet, pid: nat, t: nat)
    requires (forall e :: e in log ==> IdsBounded(e)) && pid < 100_000_000 && t < 10_000_000
    requires Presented(r, packets, NamesGiven(r, log), OwnersIn(r, log)) && p in packets && p.Descriptor?
    ensures var last := LastOf(NamesProcess(r, pid), log);
            p.uuid == pid ==>
              p.name == r.title(if last.Some? then Given(NameGiven(last.value), pid) else ProcessFallback(pid))
    ensures var last := LastOf(NamesThread(r, t), log);
            p.uuid == 600_000_000 + t ==>
              p.name == r.title(if last.Some? then Given(NameGiven(last.value), t) else ThreadFallback(t))
  {
    LastNameCounts(r, log, pid, t);
    hide NamesGiven, OwnersIn, LastOf, IdsBounded, HangsFrom, NameGiven;
  }

  // ---- a thread's process ----

  /** The entry needs the group of thread `t`: it names the thread, or is an event on one
      of its tracks. */
  function NeedsThread(r: Rendering, t: int): Entry -> bool {
    (e: Entry) =>
      !e.Counter? &&
      if IsNamingEntry(e) then r.text(e.call.name) == "thread_name" && e.call.tid == t
      else e.call.tid == t || e.call.tid == 100_000_000 + t || e.call.tid == 200_000_000 + t ||
           e.call.tid == 300_000_000 + t
  }

  lemma ThreadOfMeans(tid: int, t: nat)
    requires Bounded(TrackOf(tid)) && t < 10_000_000
    ensures ThreadOf(tid) == t <==>
            tid == t || tid == 100_000_000 + t || tid == 200_000_000 + t || tid == 300_000_000 + t
    ensures 0 <= ThreadOf(tid) < 10_000_000 && Uuid(ThreadGroup(ThreadOf(tid))) == 600_000_000 + ThreadOf(tid)
  {
  }

  lemma EntryOwnersMean(r: Rendering, owners: map<nat, nat>, e: Entry, t: nat)
    requires IdsBounded(e) && t < 10_000_000
    ensures var u, after := 600_000_000 + t, EntryOwners(r, owners, e);
            if u !in owners && NeedsThread(r, t)(e) then u in after && after[u] == e.call.pid
            else (u in after <==> u in owners) && (u in owners ==> after[u] == owners[u])
  {
    if !e.Counter? {
      BoundedUuids(e);
      ThreadOfMeans(e.call.tid, t);
      hide Uuid, TrackOf, OfUuid, ThreadOf, Bounded;
      var d := Dispatched(e.call);
      assert d.pid == e.call.pid && d.tid == e.call.tid && d.name == e.call.name;
      assert d.Metadata? <==> IsNamingEntry(e);
      hide Dispatched;
      if !d.Metadata? {
        assert NeedsThread(r, t)(e) <==> ThreadOf(d.tid) == t;
        assert EntryOwners(r, owners, e) == Claimed(owners, d.pid, ThreadOf(d.tid));
      }
    }
  }

  /** A thread group belongs to the process of the first entry that needs it. */
  lemma {:induction false} FirstNeedOwns(r: Rendering, log: seq<Entry>, t: nat)
    requires (forall e :: e in log ==> IdsBounded(e)) && t < 10_000_000
    ensures var first, owners, u := FirstOf(NeedsThread(r, t), log), OwnersIn(r, log), 600_000_000 + t;
            && (u in owners <==> first.Some?)
            && (first.Some? ==> !first.value.Counter? && owners[u] == first.value.call.pid)
  {
    if log != [] {
      var front, e := Init(log), Last(log);
      assert forall x :: x in front ==> x in log;
      FirstNeedOwns(r, front, t);
      EntryOwnersMean(r, OwnersIn(r, front), e, t);
      hide EntryOwners, IdsBounded;
    }
  }
}
