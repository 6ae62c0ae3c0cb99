/** The budget theorem for the profiles that labels can actually ask for. */
module SchedulerProfiles {
  import opened AccountResources
  import opened RunnerProfiles
  import opened SchedulerActs
  import opened SchedulerAdmissions
  import opened SchedulerBudget
  import opened SchedulerMachines
  import opened SchedulerModel
  import opened SchedulerReservations
  import opened SchedulerRuns
  import opened SchedulerPolicy
  import opened Wrappers

  function ForScheduler(p: RunnerProfile): Profile {
    Profile(p.custom, p.key, p.resources)
  }

  ghost function ResourcesFor(key: string): Resources {
    if exists p :: Offered(p) && p.key == key then
      var p :| Offered(p) && p.key == key;
      p.resources
    else
      ZERO
  }

  lemma {:induction false} OfferedConforms(p: RunnerProfile)
    requires Offered(p)
    ensures Conforms(ForScheduler(p), ResourcesFor)
  {
    var q :| Offered(q) && q.key == p.key && ResourcesFor(p.key) == q.resources;
    KeyNamesOneProfile(p, q);
  }

  ghost predicate SubmitsOffered(run: Run) {
    forall i :: 0 <= i < |run.moments| && run.moments[i].event.Submit? ==>
      exists p :: Offered(p) && run.moments[i].event.profile == ForScheduler(p)
  }

  /** In every reachable state the jobs that hold a slot fit the account in vCPU, memory and disk. */
  lemma {:induction false} OfferedProfilesFitTheAccount(run: Run, n: nat)
    requires run.Valid() && SubmitsOffered(run) && n < |run.states|
    ensures TotalOf(run.states[n].jobs, Holders(run.states[n].jobs)).Within(ACCOUNT_LIMIT)
  {
    hide Offered, ForScheduler, TotalOf;
    OfferedSubmitsConform(run);
    SlotHoldersFitTheAccount(run, n, ResourcesFor);
  }

  // ---------------------------------------------------------------- presets

  predicate IsPreset(p: RunnerProfile) {
    p in {LITE, BASIC, STANDARD_1, STANDARD_2, STANDARD_3, STANDARD_4}
  }

  /** Custom slots start idle, without a machine. */
  lemma {:induction false} CustomSlotsStartIdle(i: SlotIndex)
    ensures var slot := Initial().slots[i];
      i < CUSTOM_SLOTS ==> slot.state == Idle && slot.shape.None? && slot.reserved == 0
  {
  }

  /** Every preset has a slot of its own, which starts with the preset's machine. */
  lemma {:induction false} PresetsHaveSlots(p: RunnerProfile)
    requires IsPreset(p)
    ensures PresetSlot(p.key).Some?
    ensures var slot := Initial().slots[PresetSlot(p.key).value]; slot.state == Ready && slot.shape == Some(MachineOf(ForScheduler(p)))
  {
  }

  lemma {:induction false} OnlyPresetsStart(i: SlotIndex)
    ensures Initial().slots[i].shape.Some? ==>
      exists p :: IsPreset(p) && Initial().slots[i].shape == Some(MachineOf(ForScheduler(p)))
  {
    var shape := Initial().slots[i].shape;
    if i == 10 { assert IsPreset(BASIC) && shape == Some(MachineOf(ForScheduler(BASIC))); }
    if i == 11 { assert IsPreset(LITE) && shape == Some(MachineOf(ForScheduler(LITE))); }
    if i == 12 { assert IsPreset(STANDARD_1) && shape == Some(MachineOf(ForScheduler(STANDARD_1))); }
    if i == 13 { assert IsPreset(STANDARD_2) && shape == Some(MachineOf(ForScheduler(STANDARD_2))); }
    if i == 14 { assert IsPreset(STANDARD_3) && shape == Some(MachineOf(ForScheduler(STANDARD_3))); }
    if i == 15 { assert IsPreset(STANDARD_4) && shape == Some(MachineOf(ForScheduler(STANDARD_4))); }
  }

  lemma {:induction false} ResourcesKnowPresets()
    ensures KnowsPresets(ResourcesFor)
  {
    hide Initial, Offered;
    forall i: SlotIndex
      ensures ShapeConforms(Initial().slots[i].shape, ResourcesFor)
    {
      OnlyPresetsStart(i);
      if Initial().slots[i].shape.Some? {
        var p :| IsPreset(p) && Initial().slots[i].shape == Some(MachineOf(ForScheduler(p)));
        PresetIsOffered(p);
        OfferedConforms(p);
      }
    }
  }

  lemma {:induction false} PresetIsOffered(p: RunnerProfile)
    requires IsPreset(p)
    ensures Offered(p)
  {
  }

  lemma {:induction false} OfferedSubmitsConform(run: Run)
    requires run.Valid() && SubmitsOffered(run)
    ensures SubmitsConform(run, ResourcesFor)
  {
    hide Offered, ForScheduler, Initial, Leads;
    forall i | 0 <= i < |run.moments| && run.moments[i].event.Submit?
      ensures Conforms(run.moments[i].event.profile, ResourcesFor)
    {
      var p :| Offered(p) && run.moments[i].event.profile == ForScheduler(p);
      OfferedConforms(p);
    }
  }

  /**
   * For the profiles that labels can ask for, with no further assumption: as long as no recovery has uncovered its slot,
   * an active job is on a slot of its own machine, or one that is being given it.
   */
  lemma {:induction false} OfferedProfilesGetTheirMachine(run: Run, n: nat, i: SlotIndex, id: JobId)
    requires run.Valid() && SubmitsOffered(run) && n < |run.states| && id in ActiveOn(run.states[n].jobs, i)
    requires forall k :: 0 <= k < n ==> !Uncovers(run.states[k], run.moments[k].event, i)
    ensures Serves(run.states[n].slots[i], run.states[n].jobs[id].profile)
  {
    OfferedSubmitsConform(run);
    JobsRunOnTheirMachine(run, n, ResourcesFor, i, id);
    hide Initial, Leads, Uncovers, Offered;
  }

  /** And no room is left unused. */
  lemma {:induction false} OfferedProfilesLeaveNoRoom(run: Run, n: nat)
    requires run.Valid() && SubmitsOffered(run) && n < |run.moments|
    ensures run.Follows(n)
    ensures Admits(run.states[n], run.moments[n].event, run.moments[n].now) && SomeoneAdmissible(run.states[n + 1]) ==>
      SomeoneAdmitted(run.states[n], run.states[n + 1])
  {
    OfferedSubmitsConform(run);
    ResourcesKnowPresets();
    NoRoomIsLeftUnused(run, n, ResourcesFor);
    hide Initial, Leads, Offered;
  }
}
