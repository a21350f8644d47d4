/**
 * composables/useCustomScriptWorkers.ts: one lazily created worker manager
 * per script slot, compiled when the player types call for it, and the
 * recompile action. The `compile` promises settle later, when the worker
 * answers (`ScriptRunner.Deliver`); the toasts shown then are the functions
 * `WatchToast` and `RecompileToast` of the settled outcome.
 */
module ScriptSlots {
  import opened Wrappers
  import opened Types
  import opened ScriptWorker
  import opened ScriptRunner
  import opened LocalStorage
  import ScriptStorage

  datatype Slot = Slot1 | Slot2 {
    /** The storage slot id. */
    function Id(): string {
      if this == Slot1 then "slot1" else "slot2"
    }

    /** The name toasts use. */
    function Name(): string {
      if this == Slot1 then "Script A" else "Script B"
    }

    /** The player type that runs this slot's script. */
    function PlayerType(): PlayerType {
      if this == Slot1 then CUSTOM_A else CUSTOM_B
    }
  }

  datatype ToastKind = Success | Error | Info

  datatype Toast = Toast(kind: ToastKind, message: string)

  /** A template literal's rendering of `result.error`: null shows as "null". */
  function ErrorText(error: Option<string>): string {
    match error
    case Some(e) => e
    case None => "null"
  }

  /** The toast after a compile started by a player-type change: an error toast on failure only. */
  function WatchToast(slot: Slot, outcome: CompileOutcome): (t: Option<Toast>)
    ensures t.Some? <==> !outcome.success
    ensures t.Some? ==> t.value == Toast(Error, slot.Name() + " error: " + ErrorText(outcome.error))
  {
    if !outcome.success then Some(Toast(Error, slot.Name() + " error: " + ErrorText(outcome.error))) else None
  }

  /** The toast after a recompile: success or error, per slot. */
  function RecompileToast(slot: Slot, outcome: CompileOutcome): (t: Toast)
    ensures t.kind == Success <==> outcome.success
    ensures outcome.success ==> t.message == slot.Name() + " recompiled!"
    ensures !outcome.success ==> t.message == slot.Name() + " error: " + ErrorText(outcome.error) + "."
  {
    if outcome.success then Toast(Success, slot.Name() + " recompiled!")
    else Toast(Error, slot.Name() + " error: " + ErrorText(outcome.error) + ".")
  }

  /** Each slot names a different script in its toasts. */
  lemma SlotNamesDiffer()
    ensures Slot1.Name() != Slot2.Name() && Slot1.Id() != Slot2.Id()
  {
    assert Slot1.Name()[7] != Slot2.Name()[7];
    assert Slot1.Id()[4] != Slot2.Id()[4];
  }

  /** Whether the settings put the slot's script in play. */
  predicate Needs(settings: GameSettings, slot: Slot) {
    settings.player1Type == slot.PlayerType() || settings.player2Type == slot.PlayerType()
  }

  /** The two worker manager refs. */
  class ScriptSlots {
    var workerA: ScriptWorkerManager?
    var workerB: ScriptWorkerManager?

    constructor ()
      ensures workerA == null && workerB == null && Valid()
    {
      workerA := null;
      workerB := null;
    }

    /** Each slot has its own manager. */
    predicate Valid()
      reads this
    {
      workerA != null && workerB != null ==> workerA != workerB
    }

    function Ref(slot: Slot): ScriptWorkerManager?
      reads this
    {
      if slot == Slot1 then workerA else workerB
    }

    /**
     * `compileWorker(slot, ref)` up to its `await`: loads the slot's script,
     * creates the manager if the slot has none, and starts a compile only if
     * the manager is not ready. The other slot is not touched.
     */
    method CompileWorker(slot: Slot, storage: Store, setupError: Option<string>) returns (started: bool)
      requires Valid()
      modifies this, Ref(slot)
      ensures Valid() && Ref(slot) != null
      ensures old(Ref(slot)) != null ==> Ref(slot) == old(Ref(slot))
      ensures old(Ref(slot)) == null ==> fresh(Ref(slot))
      ensures Ref(Other(slot)) == old(Ref(Other(slot)))
      ensures started <==> old(Ref(slot)) == null || !old(Ref(slot).IsReady())
      ensures started ==> Ref(slot).CompileStarted(ScriptStorage.LoadScript(storage, slot.Id()), setupError)
      ensures !started ==> unchanged(Ref(slot))
    {
      var scriptCode := ScriptStorage.LoadScript(storage, slot.Id());
      var manager := Ref(slot);
      if manager == null {
        manager := new ScriptWorkerManager();
        if slot == Slot1 {
          workerA := manager;
        } else {
          workerB := manager;
        }
      }
      started := !manager.IsReady();
      if started {
        manager.Compile(scriptCode, setupError);
      }
    }

    /**
     * The watcher on the two player types: slot 1 is compiled iff either
     * player is CUSTOM_A and its manager is not ready, slot 2 likewise for
     * CUSTOM_B; a slot nobody needs is left alone.
     */
    method OnPlayerTypesChanged(settings: GameSettings, storage: Store,
                                setupErrorA: Option<string>, setupErrorB: Option<string>)
      returns (startedA: bool, startedB: bool)
      requires Valid()
      modifies this, workerA, workerB
      ensures Valid()
      ensures Needs(settings, Slot1) ==> workerA != null && (old(workerA) != null ==> workerA == old(workerA))
      ensures startedA <==> Needs(settings, Slot1) && (old(workerA) == null || !old(workerA.IsReady()))
      ensures startedA ==> workerA.CompileStarted(ScriptStorage.LoadScript(storage, Slot1.Id()), setupErrorA)
      ensures !startedA ==> workerA == old(workerA) && (workerA != null ==> unchanged(workerA))
      ensures Needs(settings, Slot2) ==> workerB != null && (old(workerB) != null ==> workerB == old(workerB))
      ensures startedB <==> Needs(settings, Slot2) && (old(workerB) == null || !old(workerB.IsReady()))
      ensures startedB ==> workerB.CompileStarted(ScriptStorage.LoadScript(storage, Slot2.Id()), setupErrorB)
      ensures !startedB ==> workerB == old(workerB) && (workerB != null ==> unchanged(workerB))
    {
      startedA, startedB := false, false;
      if Needs(settings, Slot1) {
        startedA := CompileWorker(Slot1, storage, setupErrorA);
      }
      if Needs(settings, Slot2) {
        startedB := CompileWorker(Slot2, storage, setupErrorB);
      }
    }

    /**
     * `recompileCustomScript()`: every slot that already has a manager is
     * compiled again, ready or not; a slot without one is left alone.
     */
    method RecompileCustomScript(storage: Store, setupErrorA: Option<string>, setupErrorB: Option<string>)
      returns (startedA: bool, startedB: bool)
      requires Valid()
      modifies workerA, workerB
      ensures startedA <==> workerA != null
      ensures startedB <==> workerB != null
      ensures startedA ==> workerA.CompileStarted(ScriptStorage.LoadScript(storage, Slot1.Id()), setupErrorA)
      ensures startedB ==> workerB.CompileStarted(ScriptStorage.LoadScript(storage, Slot2.Id()), setupErrorB)
    {
      startedA, startedB := false, false;
      if workerA != null {
        startedA := RecompileSlot(Slot1, storage, setupErrorA);
      }
      if workerB != null {
        startedB := RecompileSlot(Slot2, storage, setupErrorB);
      }
    }

    /**
     * `recompileSlot(slot, ref)` up to its `await`, for a slot that has a
     * manager. The source's early return for an empty script cannot happen:
     * a load never yields an empty script.
     */
    method RecompileSlot(slot: Slot, storage: Store, setupError: Option<string>) returns (started: bool)
      requires Ref(slot) != null
      modifies Ref(slot)
      ensures started
      ensures Ref(slot).CompileStarted(ScriptStorage.LoadScript(storage, slot.Id()), setupError)
    {
      var scriptCode := ScriptStorage.LoadScript(storage, slot.Id());
      if |scriptCode| == 0 {
        assert false;
        return false;
      }
      Ref(slot).Compile(scriptCode, setupError);
      return true;
    }
  }

  function Other(slot: Slot): Slot {
    if slot == Slot1 then Slot2 else Slot1
  }
}
