/**
 * The selection and edit-mode state machine of src/editor/editor.ts.
 *
 * Entities are ids; what the editor reads of them (area, unsaved changes,
 * triggered rules) comes through a `Host`. Leaflet and DOM effects are kept
 * only as far as they are state: which popup is open and with what content,
 * the on-screen line, which layers have shape editing enabled, which
 * entities are placed on the map, and the requests sent to the entity
 * repository.
 *
 * Each method of `Editor` is proved against a transition function on the
 * `State` record (`AfterSetMode`, `AfterToggleEditMode`, ...); the
 * properties of the state machine are lemmas about those functions.
 */
module EditorState {
  import opened Wrappers
  import opened Display

  /** A newly drawn polygon larger than this (in m²) is refused. */
  const MaxDrawnArea: real := 1000.0

  /** The editor's status; `NoMode` is the source's 'none'. */
  datatype Mode = NoMode | Selected | EditingShape | EditingInfo

  /** What `setMode` is asked for: a mode, or 'blur' (leave the current mode). */
  datatype Request = Go(mode: Mode) | Blur

  /** The first argument of `setPopup`: 'info', 'edit-info' or 'none'. */
  datatype PopupDisplay = InfoDisplay | EditInfoDisplay | NoDisplay

  /**
   * The shared popup: closed, showing an entity's information with its issue
   * list (and the two edit buttons in edit mode), or showing the entity's
   * form (with save and delete buttons in edit mode).
   */
  datatype Popup =
    | Closed
    | InfoPanel(entity: EntityId, issues: seq<Issue>, editButtons: bool)
    | EditInfoPanel(entity: EntityId, formButtons: bool)

  /** A call made to the entity repository. */
  datatype RepositoryCall = Create | Update(id: EntityId) | Delete(id: EntityId)

  /** Everything the editor's methods change. */
  datatype State = State(
    isEditMode: bool,
    mode: Mode,
    selected: Option<EntityId>,
    popup: Popup,
    onScreen: string,
    shapeEditing: set<EntityId>,
    placed: set<EntityId>,
    requests: seq<RepositoryCall>)

  function Initial(): State
  {
    State(false, NoMode, None, Closed, "", {}, {}, [])
  }

  /** The editor's invariant: with no mode, nothing is selected and the popup is closed. */
  ghost predicate Consistent(s: State)
  {
    s.mode == NoMode ==> s.selected.None? && s.popup == Closed
  }

  function SetOf(e: Option<EntityId>): set<EntityId>
  {
    if e.Some? then {e.value} else {}
  }

  // ---------------------------------------------------------------------
  // Transition functions

  /** The popup `setPopup(display, entity)` leaves open. */
  function PopupFor(display: PopupDisplay, entity: Option<EntityId>, editMode: bool, host: Host): Popup
  {
    if display == NoDisplay || entity.None? then Closed
    else if display == InfoDisplay then InfoPanel(entity.value, IssuesOf(host.look(entity.value).triggered), editMode)
    else EditInfoPanel(entity.value, editMode)
  }

  /** Leaving `prev` for `next` saves `prev` when it has unsaved changes. */
  predicate NeedsSave(prev: Option<EntityId>, next: Option<EntityId>, host: Host)
  {
    prev.Some? && next != prev && host.look(prev.value).hasChanges
  }

  /** `onLayerDoneEditing`: stop editing the layer, clear the line, send the update. */
  function AfterDoneEditing(s: State, entity: EntityId): State
  {
    s.(shapeEditing := s.shapeEditing - {entity}, onScreen := "", requests := s.requests + [Update(entity)])
  }

  /** `setSelected(next, prev)`, with its save step taken as completed. */
  function AfterSetSelected(s: State, next: Option<EntityId>, prev: Option<EntityId>, host: Host): State
  {
    var saved := if NeedsSave(prev, next, host) then AfterDoneEditing(s, prev.value) else s;
    var shown := if saved.isEditMode then saved.(onScreen := OnScreenText(next, host)) else saved;
    shown.(selected := next)
  }

  /** The mode and entity `setMode` settles on, resolving 'blur' from the previous mode. */
  function Resolve(request: Request, nextEntity: Option<EntityId>, prevMode: Mode, prevEntity: Option<EntityId>): (Mode, Option<EntityId>)
  {
    match request
    case Go(m) => (m, nextEntity)
    case Blur =>
      if (prevMode == EditingShape || prevMode == EditingInfo) && prevEntity.Some? then
        (Selected, if nextEntity.Some? then nextEntity else prevEntity)
      else
        (NoMode, None)
  }

  /** The request repeats the current mode and selection, so `setMode` does nothing. */
  predicate IsRepeat(s: State, request: Request, nextEntity: Option<EntityId>)
  {
    request == Go(s.mode) && nextEntity == s.selected
  }

  /** `setMode(request, nextEntity)`. */
  function AfterSetMode(s: State, request: Request, nextEntity: Option<EntityId>, host: Host): State
  {
    if IsRepeat(s, request, nextEntity) then s
    else
      var resolved := Resolve(request, nextEntity, s.mode, s.selected);
      var m := resolved.0;
      var next := resolved.1;
      var prev := s.selected;
      var s1 := s.(mode := m);
      if m == NoMode then
        AfterSetSelected(s1.(popup := Closed), None, prev, host)
      else if next.None? then
        s1
      else if m == Selected then
        var s2 := AfterSetSelected(s1.(popup := PopupFor(InfoDisplay, next, s.isEditMode, host)), next, prev, host);
        s2.(shapeEditing := s2.shapeEditing - SetOf(prev))
      else if m == EditingShape then
        AfterSetSelected(s1.(shapeEditing := s1.shapeEditing + {next.value}, popup := Closed), next, prev, host)
      else
        AfterSetSelected(s1.(popup := PopupFor(EditInfoDisplay, next, s.isEditMode, host)), next, prev, host)
  }

  /** `toggleEditMode()`. */
  function AfterToggleEditMode(s: State, host: Host): State
  {
    var flipped := s.(isEditMode := !s.isEditMode);
    var refreshed := flipped.(popup := PopupFor(InfoDisplay, flipped.selected, flipped.isEditMode, host));
    if !refreshed.isEditMode && refreshed.mode != Selected then
      AfterSetMode(refreshed, Go(NoMode), None, host)
    else
      refreshed
  }

  /** `deleteAndRemoveEntity(entity)`. */
  function AfterDelete(s: State, entity: EntityId, host: Host): State
  {
    var s1 := AfterSetMode(s.(selected := None), Go(NoMode), None, host);
    s1.(placed := s1.placed - {entity}, requests := s1.requests + [Delete(entity)])
  }

  /** `onNewLayerCreated` for a drawn polygon of this area; `created` is the repository's answer. */
  function AfterNewLayer(s: State, area: real, created: Option<EntityId>, host: Host): State
  {
    if area > MaxDrawnArea then s
    else
      var s1 := s.(requests := s.requests + [Create]);
      if created.None? then s1
      else AfterSetMode(s1.(placed := s1.placed + {created.value}), Go(EditingInfo), created, host)
  }

  // ---------------------------------------------------------------------
  // Properties of the state machine

  /** Asking for the current mode and the current selection changes nothing. */
  lemma SetModeRepeatIsNoop(s: State, host: Host)
    ensures AfterSetMode(s, Go(s.mode), s.selected, host) == s
  {
  }

  /** `setMode` keeps the selection in step with the mode it resolves to. */
  lemma SetModeSelection(s: State, request: Request, nextEntity: Option<EntityId>, host: Host)
    requires !IsRepeat(s, request, nextEntity)
    ensures var t := AfterSetMode(s, request, nextEntity, host);
      var r := Resolve(request, nextEntity, s.mode, s.selected);
      && t.mode == r.0
      && (r.0 == NoMode ==> t.selected.None? && t.popup == Closed)
      && (r.0 != NoMode && r.1.Some? ==> t.selected == r.1)
      && (r.0 != NoMode && r.1.None? ==> t == s.(mode := r.0))
  {
  }

  /**
   * 'blur' while editing a selected entity returns to `Selected`, keeping the
   * given entity or else the previous one; any other 'blur' clears the mode
   * and the selection.
   */
  lemma BlurResolution(s: State, nextEntity: Option<EntityId>, host: Host)
    ensures var t := AfterSetMode(s, Blur, nextEntity, host);
      if (s.mode == EditingShape || s.mode == EditingInfo) && s.selected.Some? then
        t.mode == Selected && t.selected == (if nextEntity.Some? then nextEntity else s.selected)
      else
        t.mode == NoMode && t.selected.None? && t.popup == Closed
  {
  }

  /** An entity is saved exactly when it is left with unsaved changes, and nothing else is sent. */
  lemma SetModeSavesLeftEntity(s: State, request: Request, nextEntity: Option<EntityId>, host: Host)
    ensures var t := AfterSetMode(s, request, nextEntity, host);
      t.requests == s.requests + (if NeedsSave(s.selected, t.selected, host) then [Update(s.selected.value)] else [])
  {
  }

  /** `setMode` never touches the edit-mode flag or the placed entities. */
  lemma SetModeFrame(s: State, request: Request, nextEntity: Option<EntityId>, host: Host)
    ensures AfterSetMode(s, request, nextEntity, host).isEditMode == s.isEditMode
    ensures AfterSetMode(s, request, nextEntity, host).placed == s.placed
  {
  }

  /** Clicking an entity selects it and opens its information popup with its issue list. */
  lemma ClickSelects(s: State, entity: EntityId, host: Host)
    ensures var t := AfterSetMode(s, Go(Selected), Some(entity), host);
      && t.mode == Selected && t.selected == Some(entity)
      && (!IsRepeat(s, Go(Selected), Some(entity)) ==>
            t.popup == InfoPanel(entity, IssuesOf(host.look(entity).triggered), s.isEditMode))
  {
  }

  lemma SetModeKeepsConsistent(s: State, request: Request, nextEntity: Option<EntityId>, host: Host)
    requires Consistent(s)
    ensures Consistent(AfterSetMode(s, request, nextEntity, host))
  {
  }

  /** Toggling flips the flag; leaving edit mode outside `Selected` clears mode and selection. */
  lemma ToggleEditModeEffect(s: State, host: Host)
    requires Consistent(s)
    ensures var t := AfterToggleEditMode(s, host);
      && t.isEditMode == !s.isEditMode
      && Consistent(t)
      && (!t.isEditMode && s.mode != Selected ==> t.mode == NoMode && t.selected.None?)
      && (t.isEditMode || s.mode == Selected ==> t.mode == s.mode && t.selected == s.selected)
  {
  }

  /** Deleting leaves nothing selected, no mode, the entity unplaced, and a delete request sent last. */
  lemma DeleteEffect(s: State, entity: EntityId, host: Host)
    requires Consistent(s)
    ensures var t := AfterDelete(s, entity, host);
      && t.selected.None? && t.mode == NoMode && Consistent(t)
      && entity !in t.placed
      && t.requests == s.requests + [Delete(entity)]
  {
  }

  /** A polygon over the limit is refused outright; an accepted one opens the new entity's form. */
  lemma NewLayerEffect(s: State, area: real, created: Option<EntityId>, host: Host)
    requires Consistent(s)
    ensures var t := AfterNewLayer(s, area, created, host);
      && Consistent(t)
      && (area > MaxDrawnArea ==> t == s)
      && (area <= MaxDrawnArea && created.Some? ==>
            t.mode == EditingInfo && t.selected == created && created.value in t.placed)
      && (area <= MaxDrawnArea ==> |t.requests| > |s.requests| && t.requests[|s.requests|] == Create)
  {
  }

  // ---------------------------------------------------------------------
  // The editor object

  class Editor {
    var isEditMode: bool
    var mode: Mode
    var selected: Option<EntityId>
    var popup: Popup
    var onScreen: string
    var shapeEditing: set<EntityId>
    var placed: set<EntityId>
    var requests: seq<RepositoryCall>

    function Snapshot(): State
      reads this
    {
      State(isEditMode, mode, selected, popup, onScreen, shapeEditing, placed, requests)
    }

    ghost predicate Valid()
      reads this
    {
      Consistent(Snapshot())
    }

    constructor ()
      ensures Snapshot() == Initial() && Valid()
    {
      isEditMode := false;
      mode := NoMode;
      selected := None;
      popup := Closed;
      onScreen := "";
      shapeEditing := {};
      placed := {};
      requests := [];
    }

    /** `setPopup(display, entity)`: builds the issue list for the information popup. */
    method SetPopup(display: PopupDisplay, entity: Option<EntityId>, host: Host)
      modifies this
      ensures Snapshot() == old(Snapshot()).(popup := PopupFor(display, entity, isEditMode, host))
    {
      if display == NoDisplay || entity.None? {
        popup := Closed;
        return;
      }
      if display == InfoDisplay {
        var issues := IssueList(host.look(entity.value).triggered);
        popup := InfoPanel(entity.value, issues, isEditMode);
        return;
      }
      popup := EditInfoPanel(entity.value, isEditMode);
    }

    /** `UpdateOnScreenDisplay(entity)`: the area, overwritten by each severity-3 rule in turn. */
    method UpdateOnScreenDisplay(entity: Option<EntityId>, host: Host)
      modifies this
      ensures Snapshot() == old(Snapshot()).(onScreen := OnScreenText(entity, host))
    {
      if entity.Some? {
        var summary := host.look(entity.value);
        var rules := summary.triggered;
        onScreen := host.show(summary.area) + "m²";
        for i := 0 to |rules|
          invariant Snapshot() == old(Snapshot()).(onScreen := OnScreenLine(summary.(triggered := rules[..i]), host.show))
        {
          assert rules[..i + 1][..i] == rules[..i];
          if rules[i].severity >= 3 {
            onScreen := rules[i].shortMessage;
          }
        }
        assert rules[..|rules|] == rules;
      } else {
        onScreen := "";
      }
    }

    /** `onLayerDoneEditing(entity)`, up to the repository call. */
    method OnLayerDoneEditing(entity: EntityId, host: Host)
      modifies this
      ensures Snapshot() == AfterDoneEditing(old(Snapshot()), entity)
    {
      shapeEditing := shapeEditing - {entity};
      UpdateOnScreenDisplay(None, host);
      requests := requests + [Update(entity)];
    }

    /** `setSelected(next, prev)`. */
    method SetSelected(next: Option<EntityId>, prev: Option<EntityId>, host: Host)
      modifies this
      ensures Snapshot() == AfterSetSelected(old(Snapshot()), next, prev, host)
    {
      if prev.Some? && next != prev && host.look(prev.value).hasChanges {
        OnLayerDoneEditing(prev.value, host);
      }
      if isEditMode {
        UpdateOnScreenDisplay(next, host);
      }
      selected := next;
    }

    /** `setMode(request, nextEntity)`. */
    method SetMode(request: Request, nextEntity: Option<EntityId>, host: Host)
      requires Valid()
      modifies this
      ensures Valid()
      ensures Snapshot() == AfterSetMode(old(Snapshot()), request, nextEntity, host)
    {
      SetModeKeepsConsistent(Snapshot(), request, nextEntity, host);
      var prevMode := mode;
      var prevEntity := selected;
      if request == Go(prevMode) && nextEntity == prevEntity {
        return;
      }

      var nextMode: Mode;
      var next := nextEntity;
      if request == Blur {
        if (prevMode == EditingShape || prevMode == EditingInfo) && prevEntity.Some? {
          nextMode := Selected;
          if next.None? {
            next := prevEntity;
          }
        } else {
          nextMode := NoMode;
          next := None;
        }
      } else {
        nextMode := request.mode;
      }

      mode := nextMode;

      if mode == NoMode {
        SetPopup(NoDisplay, None, host);
        SetSelected(None, prevEntity, host);
        return;
      }
      if mode == Selected && next.Some? {
        SetPopup(InfoDisplay, next, host);
        SetSelected(next, prevEntity, host);
        if prevEntity.Some? {
          shapeEditing := shapeEditing - {prevEntity.value};
        }
        return;
      }
      if mode == EditingShape && next.Some? {
        shapeEditing := shapeEditing + {next.value};
        SetPopup(NoDisplay, None, host);
        SetSelected(next, prevEntity, host);
        return;
      }
      if mode == EditingInfo && next.Some? {
        SetPopup(EditInfoDisplay, next, host);
        SetSelected(next, prevEntity, host);
        return;
      }
    }

    /** `onLayerClicked(entity)`. */
    method OnLayerClicked(entity: EntityId, host: Host)
      requires Valid()
      modifies this
      ensures Valid()
      ensures Snapshot() == AfterSetMode(old(Snapshot()), Go(Selected), Some(entity), host)
      ensures mode == Selected && selected == Some(entity)
    {
      ClickSelects(Snapshot(), entity, host);
      SetMode(Go(Selected), Some(entity), host);
    }

    /** `toggleEditMode()`; the instructions screen shown on entry changes no editor state. */
    method ToggleEditMode(host: Host)
      requires Valid()
      modifies this
      ensures Valid()
      ensures Snapshot() == AfterToggleEditMode(old(Snapshot()), host)
    {
      ToggleEditModeEffect(Snapshot(), host);
      isEditMode := !isEditMode;
      SetPopup(InfoDisplay, selected, host);
      if !isEditMode && mode != Selected {
        SetMode(Go(NoMode), None, host);
      }
    }

    /** `deleteAndRemoveEntity(entity)`. */
    method DeleteAndRemoveEntity(entity: EntityId, host: Host)
      requires Valid()
      modifies this
      ensures Valid()
      ensures Snapshot() == AfterDelete(old(Snapshot()), entity, host)
    {
      DeleteEffect(Snapshot(), entity, host);
      selected := None;
      SetMode(Go(NoMode), None, host);
      placed := placed - {entity};
      requests := requests + [Delete(entity)];
    }

    /** `addEntityToMap(entity)`: the entity's layer joins the placement layers. */
    method AddEntityToMap(entity: EntityId)
      modifies this
      ensures Snapshot() == old(Snapshot()).(placed := old(placed) + {entity})
    {
      placed := placed + {entity};
    }

    /** `addAPIEntities()`: places every entity the repository lists, in order. */
    method AddApiEntities(entities: seq<EntityId>)
      requires Valid()
      modifies this
      ensures Valid()
      ensures Snapshot() == old(Snapshot()).(placed := old(placed) + set e | e in entities)
    {
      for i := 0 to |entities|
        invariant Valid()
        invariant Snapshot() == old(Snapshot()).(placed := old(placed) + set e | e in entities[..i])
      {
        AddEntityToMap(entities[i]);
      }
      assert entities[..|entities|] == entities;
    }

    /**
     * `onNewLayerCreated` for a drawn polygon of area `area`: too large a
     * polygon is refused and nothing is created; otherwise the repository is
     * asked to create the entity, and `created` is its answer.
     */
    method OnNewLayerCreated(area: real, created: Option<EntityId>, host: Host) returns (accepted: bool)
      requires Valid()
      modifies this
      ensures Valid()
      ensures accepted <==> area <= MaxDrawnArea
      ensures Snapshot() == AfterNewLayer(old(Snapshot()), area, created, host)
    {
      NewLayerEffect(Snapshot(), area, created, host);
      if area > MaxDrawnArea {
        return false;
      }
      accepted := true;
      requests := requests + [Create];
      if created.Some? {
        AddEntityToMap(created.value);
        SetMode(Go(EditingInfo), created, host);
      }
    }
  }
}
