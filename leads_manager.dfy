/**
 * The lead list with folders: selection toggling, select-all in a folder,
 * the grouping of leads into folders, and the handlers that create and
 * delete folders and move leads between them.
 *
 * The component's state is the class `LeadsManager`. Each handler takes the
 * outcome of its HTTP calls as parameters and returns the requests it
 * issued, in the order it issued them.
 */
module LeadsManager {
  import opened Text
  import opened GenerateLeads
  import opened Lists

  // ---------------------------------------------------------------------------
  // toggleLeadSelection and selectAllInFolder
  // ---------------------------------------------------------------------------

  /** `prev.filter((id) => id !== leadId)`. */
  function Without(ids: seq<string>, leadId: string): seq<string>
  {
    Filter(ids, id => id != leadId)
  }

  /** The new selection of `toggleLeadSelection(leadId)`. */
  function Toggle(prev: seq<string>, leadId: string): seq<string>
  {
    if leadId in prev then Without(prev, leadId) else prev + [leadId]
  }

  /** After a toggle the id is selected exactly when it was not; every other id keeps its membership. */
  lemma ToggleFlips(prev: seq<string>, leadId: string)
    ensures leadId in Toggle(prev, leadId) <==> leadId !in prev
    ensures forall id :: id != leadId ==> (id in Toggle(prev, leadId) <==> id in prev)
  {
  }

  /** The other ids keep their order and their repetitions. */
  lemma ToggleKeepsOthers(prev: seq<string>, leadId: string)
    ensures Without(Toggle(prev, leadId), leadId) == Without(prev, leadId)
  {
    if leadId !in prev {
      FilterAppend(prev, [leadId], id => id != leadId);
    } else {
      var r := Without(prev, leadId);
      FilterKeepsAll(r, id => id != leadId);
    }
  }

  /** An id that was not selected is appended at the end. */
  lemma ToggleAppends(prev: seq<string>, leadId: string)
    requires leadId !in prev
    ensures Toggle(prev, leadId) == prev + [leadId]
  {
  }

  /** Toggling an unselected id twice restores the selection. */
  lemma ToggleTwice(prev: seq<string>, leadId: string)
    requires leadId !in prev
    ensures Toggle(Toggle(prev, leadId), leadId) == prev
  {
    FilterAppend(prev, [leadId], id => id != leadId);
    FilterKeepsAll(prev, id => id != leadId);
  }

  /** `folderLeads.map((l) => l.id)`. */
  function Ids(leads: seq<StoredLead>): (ids: seq<string>)
    ensures |ids| == |leads|
    ensures forall k :: 0 <= k < |leads| ==> ids[k] == leads[k].lead.id
  {
    if leads == [] then [] else Ids(leads[..|leads| - 1]) + [leads[|leads| - 1].lead.id]
  }

  /** `folderLeads.every((lead) => selectedLeads.includes(lead.id))`. */
  predicate AllSelected(selected: seq<string>, folderIds: seq<string>)
  {
    forall k :: 0 <= k < |folderIds| ==> folderIds[k] in selected
  }

  /** The new selection of `selectAllInFolder(folderLeads)`. */
  function SelectAll(selected: seq<string>, folderIds: seq<string>): seq<string>
  {
    if AllSelected(selected, folderIds) then Filter(selected, id => id !in folderIds)
    else selected + folderIds
  }

  /**
   * When every id of the folder is selected, they all leave the selection
   * and nothing else does; otherwise every id of the folder is selected
   * afterwards and the earlier selection stays in front.
   */
  lemma SelectAllEffect(selected: seq<string>, folderIds: seq<string>)
    ensures AllSelected(selected, folderIds) ==>
      forall id :: id in SelectAll(selected, folderIds) <==> id in selected && id !in folderIds
    ensures !AllSelected(selected, folderIds) ==>
      var r := SelectAll(selected, folderIds);
      r[..|selected|] == selected && AllSelected(r, folderIds)
  {
    if !AllSelected(selected, folderIds) {
      var r := selected + folderIds;
      forall k | 0 <= k < |folderIds| ensures folderIds[k] in r {
        assert r[|selected| + k] == folderIds[k];
      }
    }
  }

  /** A folder without leads leaves the selection as it is: `every` holds and the filter keeps all. */
  lemma SelectAllEmptyFolder(selected: seq<string>)
    ensures SelectAll(selected, []) == selected
  {
    FilterKeepsAll(selected, id => id !in []);
  }

  /** Selecting a folder whose ids are all unselected, then selecting it again, restores the selection. */
  lemma SelectAllTwice(selected: seq<string>, folderIds: seq<string>)
    requires folderIds != [] && forall k :: 0 <= k < |folderIds| ==> folderIds[k] !in selected
    ensures SelectAll(SelectAll(selected, folderIds), folderIds) == selected
  {
    assert !AllSelected(selected, folderIds) by {
      assert folderIds[0] !in selected;
    }
    var r := selected + folderIds;
    assert SelectAll(selected, folderIds) == r;
    assert AllSelected(r, folderIds) by {
      SelectAllEffect(selected, folderIds);
    }
    var keep := id => id !in folderIds;
    assert SelectAll(r, folderIds) == Filter(r, keep);
    FilterAppend(selected, folderIds, keep);
    FilterKeepsAll(selected, keep);
    FilterDropsAll(folderIds, keep);
  }

  /** Already selected ids are appended again: the selection can hold duplicates. */
  lemma SelectAllDuplicates()
    ensures SelectAll(["a"], ["a", "b"]) == ["a", "a", "b"]
  {
    assert !AllSelected(["a"], ["a", "b"]) by {
      assert ["a", "b"][1] !in ["a"];
    }
  }

  // ---------------------------------------------------------------------------
  // loadFolders
  // ---------------------------------------------------------------------------

  /** A lead as the list receives it: the generated lead and the folder it was filed in, if any. */
  datatype StoredLead = StoredLead(lead: Lead, folderId: Option<string>)

  /** A folder as `/api/folders` lists it. */
  datatype FolderRow = FolderRow(id: string, nombre: string)

  /** A folder with its leads, as the list shows it. */
  datatype Folder = Folder(id: string, nombre: string, leads: seq<StoredLead>)

  const UnassignedId := "unassigned"

  /** `!lead.folderId`: no folder, or the empty string. */
  predicate Falsy(folderId: Option<string>)
  {
    folderId.None? || folderId == Some("")
  }

  /** The groups of `loadFolders`: each listed folder with its leads, then the `unassigned` group. */
  function Group(rows: seq<FolderRow>, leads: seq<StoredLead>): (folders: seq<Folder>)
    ensures |folders| == |rows| + 1
  {
    seq(|rows|, i requires 0 <= i < |rows| => Folder(rows[i].id, rows[i].nombre, Filter(leads, (l: StoredLead) => l.folderId == Some(rows[i].id))))
    + [Folder(UnassignedId, "Sin carpeta", Filter(leads, (l: StoredLead) => Falsy(l.folderId)))]
  }

  /**
   * Each listed folder receives exactly the leads filed under its id, and
   * the final group exactly the leads with a falsy folder id.
   */
  lemma GroupContents(rows: seq<FolderRow>, leads: seq<StoredLead>)
    ensures forall i :: 0 <= i < |rows| ==> Group(rows, leads)[i].id == rows[i].id
    ensures forall i, l :: 0 <= i < |rows| ==> (l in Group(rows, leads)[i].leads <==> l in leads && l.folderId == Some(rows[i].id))
    ensures Group(rows, leads)[|rows|].id == UnassignedId
    ensures forall l :: l in Group(rows, leads)[|rows|].leads <==> l in leads && Falsy(l.folderId)
  {
  }

  /** A lead filed under an id no listed folder has appears in no group. */
  lemma OrphanInNoGroup(rows: seq<FolderRow>, leads: seq<StoredLead>, l: StoredLead)
    requires !Falsy(l.folderId)
    requires forall i :: 0 <= i < |rows| ==> l.folderId != Some(rows[i].id)
    ensures forall i :: 0 <= i <= |rows| ==> l !in Group(rows, leads)[i].leads
  {
    GroupContents(rows, leads);
  }

  // ---------------------------------------------------------------------------
  // The component
  // ---------------------------------------------------------------------------

  /** The HTTP calls the handlers make. */
  datatype Request =
    | ListFolders
    | PostFolder(nombre: string)
    | DeleteFolderCall(deletedId: string)
    | PutLeadFolder(leadId: string, folderId: Option<string>)

  /** The ids of `leadIds`, each moved to `target`. */
  function MoveRequests(leadIds: seq<string>, target: Option<string>): (rs: seq<Request>)
    ensures |rs| == |leadIds|
    ensures forall k :: 0 <= k < |leadIds| ==> rs[k] == PutLeadFolder(leadIds[k], target)
  {
    if leadIds == [] then [] else MoveRequests(leadIds[..|leadIds| - 1], target) + [PutLeadFolder(leadIds[|leadIds| - 1], target)]
  }

  /** The folder a drop or the move select targets: `unassigned` means no folder. */
  function Target(folderId: string): (t: Option<string>)
    ensures t.None? <==> folderId == UnassignedId
  {
    if folderId == UnassignedId then None else Some(folderId)
  }

  class LeadsManager {
    /** The `leads` prop. */
    const leads: seq<StoredLead>
    /** Whether the `onLeadsUpdate` callback was given. */
    const hasOnLeadsUpdate: bool
    var folders: seq<Folder>
    var selected: seq<string>
    var draggedLead: Option<StoredLead>
    var newFolderName: string
    var showCreateFolder: bool

    constructor(leads: seq<StoredLead>, hasOnLeadsUpdate: bool)
      ensures this.leads == leads && this.hasOnLeadsUpdate == hasOnLeadsUpdate
      ensures folders == [] && selected == [] && draggedLead == None
      ensures newFolderName == "" && !showCreateFolder
    {
      this.leads := leads;
      this.hasOnLeadsUpdate := hasOnLeadsUpdate;
      folders := [];
      selected := [];
      draggedLead := None;
      newFolderName := "";
      showCreateFolder := false;
    }

    /**
     * `loadFolders()`: list the folders and regroup the leads; when the
     * listing fails (`listed` is `None`) the folders stay as they were.
     */
    method LoadFolders(listed: Option<seq<FolderRow>>) returns (requests: seq<Request>)
      modifies this`folders
      ensures requests == [ListFolders]
      ensures listed.Some? ==> folders == Group(listed.value, leads)
      ensures listed.None? ==> folders == old(folders)
    {
      requests := [ListFolders];
      if listed.Some? {
        folders := Group(listed.value, leads);
      }
    }

    method ToggleLeadSelection(leadId: string)
      modifies this`selected
      ensures selected == Toggle(old(selected), leadId)
    {
      if leadId in selected {
        selected := Without(selected, leadId);
      } else {
        selected := selected + [leadId];
      }
    }

    method SelectAllInFolder(folderLeads: seq<StoredLead>)
      modifies this`selected
      ensures selected == SelectAll(old(selected), Ids(folderLeads))
    {
      var folderIds := Ids(folderLeads);
      if AllSelected(selected, folderIds) {
        selected := Filter(selected, id => id !in folderIds);
      } else {
        selected := selected + folderIds;
      }
    }

    /** The text field of the new-folder dialog. */
    method SetNewFolderName(name: string)
      modifies this`newFolderName
      ensures newFolderName == name
    {
      newFolderName := name;
    }

    /**
     * `createFolder()`: nothing at all for a name that is blank once
     * trimmed; otherwise post it, and when the post succeeds clear the
     * dialog and reload the folders.
     */
    method CreateFolder(created: bool, listed: Option<seq<FolderRow>>) returns (requests: seq<Request>)
      modifies this`folders, this`newFolderName, this`showCreateFolder
      ensures Trim(old(newFolderName)) == "" ==>
        requests == [] && folders == old(folders) && newFolderName == old(newFolderName) && showCreateFolder == old(showCreateFolder)
      ensures Trim(old(newFolderName)) != "" && !created ==>
        requests == [PostFolder(old(newFolderName))] && folders == old(folders)
        && newFolderName == old(newFolderName) && showCreateFolder == old(showCreateFolder)
      ensures Trim(old(newFolderName)) != "" && created ==>
        requests == [PostFolder(old(newFolderName)), ListFolders] && newFolderName == "" && !showCreateFolder
        && folders == (if listed.Some? then Group(listed.value, leads) else old(folders))
    {
      if Trim(newFolderName) == "" {
        return [];
      }
      requests := [PostFolder(newFolderName)];
      if created {
        newFolderName := "";
        showCreateFolder := false;
        var reload := LoadFolders(listed);
        requests := requests + reload;
      }
    }

    /**
     * `deleteFolder(folderId)`: nothing for the `unassigned` group;
     * otherwise delete it, and on success reload and notify the parent.
     */
    method DeleteFolder(folderId: string, deleted: bool, listed: Option<seq<FolderRow>>) returns (requests: seq<Request>, notified: bool)
      modifies this`folders
      ensures folderId == UnassignedId ==> requests == [] && !notified && folders == old(folders)
      ensures folderId != UnassignedId && !deleted ==> requests == [DeleteFolderCall(folderId)] && !notified && folders == old(folders)
      ensures folderId != UnassignedId && deleted ==>
        requests == [DeleteFolderCall(folderId), ListFolders] && notified == hasOnLeadsUpdate
        && folders == (if listed.Some? then Group(listed.value, leads) else old(folders))
    {
      if folderId == UnassignedId {
        return [], false;
      }
      requests := [DeleteFolderCall(folderId)];
      notified := false;
      if deleted {
        var reload := LoadFolders(listed);
        requests := requests + reload;
        notified := hasOnLeadsUpdate;
      }
    }

    /**
     * `moveLeadsToFolder(leadIds, folderId)`: one update per id, all issued
     * at once. If none of them fails, reload, clear the selection and notify
     * the parent; if one fails, only the requests remain.
     */
    method MoveLeadsToFolder(leadIds: seq<string>, target: Option<string>, failed: bool, listed: Option<seq<FolderRow>>)
      returns (requests: seq<Request>, notified: bool)
      modifies this`folders, this`selected
      ensures failed ==>
        requests == MoveRequests(leadIds, target) && !notified && folders == old(folders) && selected == old(selected)
      ensures !failed ==>
        requests == MoveRequests(leadIds, target) + [ListFolders] && notified == hasOnLeadsUpdate
        && selected == [] && folders == (if listed.Some? then Group(listed.value, leads) else old(folders))
    {
      requests := MoveRequests(leadIds, target);
      notified := false;
      if !failed {
        var reload := LoadFolders(listed);
        requests := requests + reload;
        selected := [];
        notified := hasOnLeadsUpdate;
      }
    }

    method HandleDragStart(lead: StoredLead)
      modifies this`draggedLead
      ensures draggedLead == Some(lead)
    {
      draggedLead := Some(lead);
    }

    /**
     * `handleDrop(e, folderId)`: with no dragged lead nothing happens;
     * otherwise move it to the folder (`unassigned` meaning none) and
     * forget it.
     */
    method HandleDrop(folderId: string, failed: bool, listed: Option<seq<FolderRow>>) returns (requests: seq<Request>, notified: bool)
      modifies this`folders, this`selected, this`draggedLead
      ensures old(draggedLead).None? ==>
        requests == [] && !notified && folders == old(folders) && selected == old(selected) && draggedLead == None
      ensures old(draggedLead).Some? && failed ==>
        requests == [PutLeadFolder(old(draggedLead).value.lead.id, Target(folderId))]
        && !notified && draggedLead == None && selected == old(selected) && folders == old(folders)
      ensures old(draggedLead).Some? && !failed ==>
        requests == [PutLeadFolder(old(draggedLead).value.lead.id, Target(folderId)), ListFolders]
        && notified == hasOnLeadsUpdate && draggedLead == None && selected == []
        && folders == (if listed.Some? then Group(listed.value, leads) else old(folders))
    {
      if draggedLead.None? {
        return [], false;
      }
      requests, notified := MoveLeadsToFolder([draggedLead.value.lead.id], Target(folderId), failed, listed);
      draggedLead := None;
    }

    /** The "Mover a..." select: move the whole selection to the chosen folder. */
    method MoveSelection(value: string, failed: bool, listed: Option<seq<FolderRow>>) returns (requests: seq<Request>, notified: bool)
      modifies this`folders, this`selected
      ensures failed ==>
        requests == MoveRequests(old(selected), Target(value)) && !notified
        && selected == old(selected) && folders == old(folders)
      ensures !failed ==>
        requests == MoveRequests(old(selected), Target(value)) + [ListFolders] && notified == hasOnLeadsUpdate
        && selected == [] && folders == (if listed.Some? then Group(listed.value, leads) else old(folders))
    {
      requests, notified := MoveLeadsToFolder(selected, Target(value), failed, listed);
    }
  }
}
