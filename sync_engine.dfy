/** The state `DataContext.jsx` keeps around the document: the document
    itself, the loading/saving flags, the time of the last successful save,
    the last error, and the debounce timer of the autosave.

    Time is a virtual clock in milliseconds that only `Tick` advances. The
    outcome of a save (what `saveHousingData` resolves or rejects with) is
    a parameter. An autosave is two steps, because other events can happen
    while its request is out: `Tick` fires the timer and dispatches the
    save, `SettleAutoSave` applies its outcome. Nothing stops a second
    autosave from being dispatched while one is out. */
module SyncEngine {
  import opened Common
  import opened Housing
  import opened GitHubService

  /** The autosave waits this long after the last change. */
  const DebounceMs: nat := 2000

  /** An armed `setTimeout`: when it is due and the document it will save. */
  datatype Armed = Armed(due: int, doc: Document)

  /** What `manualSave` resolves with when there is a document. */
  datatype ManualResult = ManualResult(success: bool, error: Option<string>)

  class DataProvider {
    var data: Option<Document>
    var loading: bool
    var saving: bool
    var lastSaved: Option<int>
    var error: Option<string>
    /** `saveTimeoutRef.current` */
    var timer: Option<Armed>
    var now: int
    /** Autosaves dispatched whose outcome has not arrived yet. */
    var inFlight: seq<Document>
    /** Every document handed to `saveHousingData`, in order. */
    ghost var sent: seq<Document>

    constructor (start: int)
      ensures data == None && loading && !saving
      ensures lastSaved == None && error == None
      ensures timer == None && now == start && inFlight == [] && sent == []
    {
      data, loading, saving := None, true, false;
      lastSaved, error := None, None;
      timer, now, inFlight, sent := None, start, [], [];
    }

    /** Only the document and the timer changed: the document is `d` and
        a fresh timer will save `d` one debounce window from now. */
    twostate predicate Rearmed(d: Document)
      reads this
    {
      && data == Some(d)
      && timer == Some(Armed(old(now) + DebounceMs, d))
      && now == old(now) && loading == old(loading) && saving == old(saving)
      && lastSaved == old(lastSaved) && error == old(error)
      && inFlight == old(inFlight) && sent == old(sent)
    }

    /** `loadData`. `loadHousingData` always resolves (it falls back to the
        skeleton document), so the error branch of `loadData` never runs. */
    method LoadData(loaded: Document)
      modifies this
      ensures data == Some(loaded) && !loading && error == None
      ensures saving == old(saving) && lastSaved == old(lastSaved) && timer == old(timer)
      ensures now == old(now) && inFlight == old(inFlight) && sent == old(sent)
    {
      loading := true;
      error := None;
      data := Some(loaded);
      loading := false;
    }

    /** `autoSave`: the armed timer, if any, is cancelled and a new one armed. */
    method AutoSave(newData: Document)
      modifies this`timer
      ensures timer == Some(Armed(now + DebounceMs, newData))
    {
      if timer.Some? {
        timer := None;
      }
      timer := Some(Armed(now + DebounceMs, newData));
    }

    /** `updateData`: the new document is current at once; saving it waits. */
    method UpdateData(newData: Document)
      modifies this
      ensures Rearmed(newData)
    {
      data := Some(newData);
      AutoSave(newData);
    }

    /** The clock advances by `dt`. A timer that falls due fires: its
        document is dispatched and `saving` is set. */
    method Tick(dt: nat)
      modifies this
      ensures now == old(now) + dt
      ensures old(timer).Some? && old(timer).value.due <= now ==>
        && timer == None && saving
        && inFlight == old(inFlight) + [old(timer).value.doc]
        && sent == old(sent) + [old(timer).value.doc]
      ensures !(old(timer).Some? && old(timer).value.due <= now) ==>
        timer == old(timer) && saving == old(saving) && inFlight == old(inFlight) && sent == old(sent)
      ensures data == old(data) && loading == old(loading)
      ensures lastSaved == old(lastSaved) && error == old(error)
    {
      now := now + dt;
      if timer.Some? && timer.value.due <= now {
        var doc := timer.value.doc;
        timer := None;
        saving := true;
        inFlight := inFlight + [doc];
        sent := sent + [doc];
      }
    }

    /** The `i`-th outstanding autosave finishes with `outcome`. Success
        records the time and clears the error; failure records the message;
        either way `saving` drops, even if another save is still out. */
    method SettleAutoSave(i: nat, outcome: Result<SaveReceipt, SaveError>)
      requires i < |inFlight|
      modifies this
      ensures outcome.Ok? ==> lastSaved == Some(now) && error == None
      ensures outcome.Err? ==>
        lastSaved == old(lastSaved) && error == Some("Auto-save failed: " + outcome.error.Message())
      ensures !saving
      ensures inFlight == WithoutIndex(old(inFlight), i)
      ensures data == old(data) && loading == old(loading) && timer == old(timer)
      ensures now == old(now) && sent == old(sent)
    {
      match outcome {
        case Ok(_) =>
          lastSaved := Some(now);
          error := None;
        case Err(e) =>
          error := Some("Auto-save failed: " + e.Message());
      }
      saving := false;
      inFlight := WithoutIndex(inFlight, i);
    }

    /** `manualSave`: nothing happens without a document. Otherwise the
        current document is saved at once (the timer is left alone) and
        `outcome` decides the result. */
    method ManualSave(outcome: Result<SaveReceipt, SaveError>) returns (r: Option<ManualResult>)
      modifies this
      ensures old(data).None? ==> r == None
      ensures old(data).None? ==> saving == old(saving) && lastSaved == old(lastSaved) && error == old(error) && sent == old(sent)
      ensures old(data).Some? && outcome.Ok? ==>
        r == Some(ManualResult(true, None)) && lastSaved == Some(now) && error == None
      ensures old(data).Some? && outcome.Err? ==>
        && r == Some(ManualResult(false, Some(outcome.error.Message())))
        && lastSaved == old(lastSaved)
        && error == Some("Save failed: " + outcome.error.Message())
      ensures old(data).Some? ==> !saving && sent == old(sent) + [old(data).value]
      ensures data == old(data) && loading == old(loading) && timer == old(timer)
      ensures now == old(now) && inFlight == old(inFlight)
    {
      if data.None? {
        return None;
      }
      saving := true;
      sent := sent + [data.value];
      match outcome {
        case Ok(_) =>
          lastSaved := Some(now);
          error := None;
          r := Some(ManualResult(true, None));
        case Err(e) =>
          error := Some("Save failed: " + e.Message());
          r := Some(ManualResult(false, Some(e.Message())));
      }
      saving := false;
    }

    // -------------------------------------------------------------------
    // The mutation catalogue: each builds the new document from the
    // current one and hands it to `updateData`.

    method AddYouthGroup(group: Group, stamp: string)
      requires data.Some?
      modifies this
      ensures Rearmed(Housing.AddYouthGroup(old(data).value, group, stamp))
    {
      UpdateData(Housing.AddYouthGroup(data.value, group, stamp));
    }

    method UpdateYouthGroup(index: nat, group: Group, stamp: string)
      requires data.Some? && index < |data.value.youthGroups|
      modifies this
      ensures Rearmed(Housing.UpdateYouthGroup(old(data).value, index, group, stamp))
    {
      UpdateData(Housing.UpdateYouthGroup(data.value, index, group, stamp));
    }

    method DeleteYouthGroup(index: nat, stamp: string)
      requires data.Some? && index < |data.value.youthGroups|
      modifies this
      ensures Rearmed(Housing.DeleteYouthGroup(old(data).value, index, stamp))
    {
      UpdateData(Housing.DeleteYouthGroup(data.value, index, stamp));
    }

    method AddRoom(room: Room, stamp: string)
      requires data.Some?
      modifies this
      ensures Rearmed(Housing.AddRoom(old(data).value, room, stamp))
    {
      UpdateData(Housing.AddRoom(data.value, room, stamp));
    }

    method UpdateRoom(index: nat, room: Room, stamp: string)
      requires data.Some? && index < |data.value.rooms|
      modifies this
      ensures Rearmed(Housing.UpdateRoom(old(data).value, index, room, stamp))
    {
      UpdateData(Housing.UpdateRoom(data.value, index, room, stamp));
    }

    method DeleteRoom(index: nat, stamp: string)
      requires data.Some?
      modifies this
      ensures Rearmed(Housing.DeleteRoom(old(data).value, index, stamp))
    {
      UpdateData(Housing.DeleteRoom(data.value, index, stamp));
    }

    method UpdateHousingAssignment(groupId: string, gender: Gender, rooms: seq<string>, stamp: string)
      requires data.Some?
      modifies this
      ensures Rearmed(Housing.UpdateHousingAssignment(old(data).value, groupId, gender, rooms, stamp))
    {
      UpdateData(Housing.UpdateHousingAssignment(data.value, groupId, gender, rooms, stamp));
    }

    method UpdateSmallGroupAssignment(groupId: string, rooms: seq<string>, stamp: string)
      requires data.Some?
      modifies this
      ensures Rearmed(Housing.UpdateSmallGroupAssignment(old(data).value, groupId, rooms, stamp))
    {
      UpdateData(Housing.UpdateSmallGroupAssignment(data.value, groupId, rooms, stamp));
    }

    method UpdateMealColorAssignment(groupId: string, color: string, stamp: string)
      requires data.Some?
      modifies this
      ensures Rearmed(Housing.UpdateMealColorAssignment(old(data).value, groupId, color, stamp))
    {
      UpdateData(Housing.UpdateMealColorAssignment(data.value, groupId, color, stamp));
    }
  }

  /** A burst of edits, each followed by a pause shorter than the debounce
      window, then a full window of quiet: exactly one save is dispatched,
      and it carries the last document. */
  method DebouncedBurst(docs: seq<Document>, gaps: seq<nat>, start: int) returns (dispatched: seq<Document>)
    requires |gaps| == |docs|
    requires forall k :: 0 <= k < |gaps| ==> gaps[k] < DebounceMs
    ensures docs == [] ==> dispatched == []
    ensures docs != [] ==> dispatched == [docs[|docs| - 1]]
  {
    var p := new DataProvider(start);
    var k := 0;
    while k < |docs|
      invariant 0 <= k <= |docs|
      invariant p.inFlight == [] && p.sent == []
      invariant k == 0 ==> p.timer == None
      invariant k > 0 ==> p.timer.Some? && p.timer.value.doc == docs[k - 1]
      invariant k > 0 ==> p.now < p.timer.value.due <= p.now + DebounceMs
    {
      p.UpdateData(docs[k]);
      p.Tick(gaps[k]);
      k := k + 1;
    }
    p.Tick(DebounceMs);
    dispatched := p.inFlight;
  }

  /** Two edits more than a window apart dispatch two autosaves that are
      out together; when the first one settles `saving` is already false
      although the second is still out. */
  method OverlappingAutoSaves(d1: Document, d2: Document, outcome: Result<SaveReceipt, SaveError>)
    returns (outstanding: seq<Document>, savingAfterFirst: bool)
    ensures outstanding == [d2]
    ensures !savingAfterFirst
  {
    var p := new DataProvider(0);
    p.UpdateData(d1);
    p.Tick(DebounceMs);
    p.UpdateData(d2);
    p.Tick(DebounceMs);
    assert p.inFlight == [d1, d2];
    p.SettleAutoSave(0, outcome);
    outstanding := p.inFlight;
    savingAfterFirst := p.saving;
  }
}
