// The GameDefinition reconciler as it runs.
module DefinitionController {
  import opened Api
  import opened Cluster
  import opened Enumeration
  import opened Executions
  import opened GameDefinitions
  import opened System

  ghost predicate ReadyIsTrue(w: World, n: string) {
    n in w.defs ==>
      && (w.defs[n].ready <==> ValidDefinition(w.defs[n].spec))
      && (w.defs[n].ready ==> w.defs[n].message == VALIDATED)
  }

  /** In every reachable state: an answered status write of a verdict means that the spec that
      was judged is the one stored. */
  lemma WrittenVerdictHolds(s: State, n: string, fault: Fault, error: Option<DefError>, s': State)
    requires Inv(s) && DefWorkStep(s, n, fault, error, s')
    requires DefWorkerAt(s, n).DefStatusWrite? && DefWorkerAt(s', n) == DefFinished(false)
    ensures n in s'.world.defs && ReadyIsTrue(s'.world, n)
    ensures s'.world.defs[n].spec == DefWorkerAt(s, n).def.spec
  {
    assert DefWorkerOK(s.world, n, DefWorkerAt(s, n));
  }

  /** A reconcile that writes nothing read a definition that is ready and valid, or none. */
  lemma ReadVerdictHolds(s: State, n: string, fault: Fault, error: Option<DefError>, s': State)
    requires DefWorkStep(s, n, fault, error, s')
    requires DefWorkerAt(s, n) == DefIdle && DefWorkerAt(s', n) == DefFinished(false)
    ensures ReadyIsTrue(s'.world, n)
  {
  }

  lemma OthersExtendRun(run: seq<State>, n: string, path: seq<State>, p: DefWorker)
    requires IsRun(run) && OthersPath(OfDefinition(n), path) && Last(run) == WithDef(path[0], n, p)
    ensures IsRun(run + AllWithDef(path, n, p)[1..])
    ensures Last(run + AllWithDef(path, n, p)[1..]) == WithDef(Last(path), n, p)
    ensures Inv(WithDef(Last(path), n, p))
  {
    OthersPathWithDef(n, path, p);
    PathExtendsRun(run, OfDefinition(n), AllWithDef(path, n, p));
    ReachableInv(run + AllWithDef(path, n, p)[1..]);
  }

  lemma CallExtendsRun(run: seq<State>, n: string, fault: Fault, error: Option<DefError>, s': State)
    requires IsRun(run) && DefWorkStep(Last(run), n, fault, error, s')
    ensures IsRun(run + [s'])
  {
    assert Step(Last(run), DefWork(n, fault, error), s');
    RunExtended(run, s');
  }

  /** The reconciler of one definition. Between two of its calls the others, which are the
      environment and every other worker, do what the script says. */
  class GameDefinitionReconciler {
    const name: string
    const others: (nat, State) -> seq<State>
    const faults: nat -> Fault
    var calls: nat
    var rest: State
    ghost var worker: DefWorker
    ghost var run: seq<State>

    ghost function Whole(): State
      reads this
    {
      WithDef(rest, name, worker)
    }

    /** What happened so far, here and elsewhere, is a run of the system. */
    ghost predicate Valid()
      reads this
    {
      && (forall i, s :: OthersPath(OfDefinition(name), [s] + others(i, s)))
      && IsRun(run) && Last(run) == Whole()
    }

    constructor (request: string, rest: State, others: (nat, State) -> seq<State>, faults: nat -> Fault,
                 ghost run: seq<State>)
      requires forall i, s :: OthersPath(OfDefinition(request), [s] + others(i, s))
      requires IsRun(run) && Last(run) == WithDef(rest, request, DefIdle)
      ensures Valid() && name == request && this.rest == rest && this.run == run && worker == DefIdle
    {
      name, this.others, this.faults, calls, this.rest := request, others, faults, 0, rest;
      worker, this.run := DefIdle, run;
    }

    /** Others move before a call. */
    method Await()
      requires Valid()
      modifies this
      ensures Valid() && worker == old(worker) && old(run) <= run
      ensures Inv(Whole())
    {
      var path := [rest] + others(calls, rest);
      assert OthersPath(OfDefinition(name), path);
      OthersExtendRun(run, name, path, worker);
      run := run + AllWithDef(path, name, worker)[1..];
      rest := Last(path);
      calls := calls + 1;
    }

    /** The reconcile continues a run of the system and ends where the machine ends; and if it
        does not fail, then at that moment the definition is gone, or ready says whether the
        stored spec is valid, whatever others did in between. */
    method Reconcile() returns (failed: bool)
      requires Valid() && worker == DefIdle
      modifies this
      ensures Valid() && old(run) <= run
      ensures worker == DefFinished(failed)
      ensures !failed ==> ReadyIsTrue(rest.world, name)
    {
      Await();
      var fault := faults(calls);
      var result := Call(rest.world, GetDef(name), fault);
      if result.1.Failed? {
        failed := result.1.error != NotFound;
        Read(fault, result.1, None);
        return;
      }
      var gameDef := result.1.def;
      var order := Walk(SchemaOf(gameDef.spec).Keys);
      var error := Validate(gameDef.spec, order);
      Read(fault, result.1, error);
      failed := Judge(gameDef, error);
    }

    /** A read leaves the cluster alone; the verdict on what was read completes its step. */
    ghost method Read(fault: Fault, reply: Reply, error: Option<DefError>)
      requires Valid() && Inv(Whole()) && worker == DefIdle && reply == Call(rest.world, GetDef(name), fault).1
      requires reply.GotDef? ==> Verdict(reply.def.spec, error)
      modifies this`worker, this`run
      ensures Valid() && old(run) <= run
      ensures worker == DefAdvance(DefIdle, reply, error)
      ensures worker == DefFinished(false) ==> ReadyIsTrue(rest.world, name)
    {
      ghost var before := Whole();
      ReadsChangeNothing(rest.world, GetDef(name), fault);
      worker := DefAdvance(worker, reply, error);
      Recorded(fault, error, before);
    }

    method Judge(found: GameDef, error: Option<DefError>) returns (failed: bool)
      requires Valid() && worker == OnDefinition(found, error)
      requires worker == DefFinished(false) ==> ReadyIsTrue(rest.world, name)
      modifies this
      ensures Valid() && old(run) <= run
      ensures worker == DefFinished(failed)
      ensures !failed ==> ReadyIsTrue(rest.world, name)
    {
      var gameDef := found;
      if error.Some? {
        gameDef := gameDef.(ready := false);
        gameDef := gameDef.(message := error.value.Text());
        failed := WriteStatus(gameDef);
      } else if !gameDef.ready || gameDef.message != VALIDATED {
        gameDef := gameDef.(ready := true);
        gameDef := gameDef.(message := VALIDATED);
        failed := WriteStatus(gameDef);
      } else {
        failed := false;
      }
    }

    /** The step that was just made is one of the system. */
    ghost method Recorded(fault: Fault, error: Option<DefError>, before: State)
      requires (forall i, s :: OthersPath(OfDefinition(name), [s] + others(i, s)))
      requires IsRun(run) && Last(run) == before && Inv(before) && DefWorkStep(before, name, fault, error, Whole())
      modifies this`run
      ensures Valid() && old(run) <= run
      ensures worker == DefFinished(false) && DefWorkerAt(before, name) == DefIdle ==> ReadyIsTrue(rest.world, name)
      ensures worker == DefFinished(false) && DefWorkerAt(before, name).DefStatusWrite? ==>
          ReadyIsTrue(rest.world, name)
    {
      CallExtendsRun(run, name, fault, error, Whole());
      run := run + [Whole()];
      if worker == DefFinished(false) {
        if DefWorkerAt(before, name) == DefIdle {
          ReadVerdictHolds(before, name, fault, error, Whole());
        } else if DefWorkerAt(before, name).DefStatusWrite? {
          WrittenVerdictHolds(before, name, fault, error, Whole());
        }
      }
    }

    method WriteStatus(gameDef: GameDef) returns (failed: bool)
      requires Valid() && worker == DefStatusWrite(gameDef)
      modifies this
      ensures Valid() && old(run) <= run
      ensures worker == DefFinished(failed)
      ensures !failed ==> ReadyIsTrue(rest.world, name)
    {
      Await();
      var fault := faults(calls);
      ghost var before := Whole();
      var result := Call(rest.world, UpdateDefStatus(gameDef), fault);
      failed := !result.1.Done?;
      worker := DefAdvance(worker, result.1, None);
      rest := rest.(world := result.0);
      Recorded(fault, None, before);
    }
  }
}
