# Placement editor and rules of bobinush/map, in Dafny

This project models the core of a camp-placement map. Participants draw their
camp as a polygon on a Leaflet map. A catalogue of placement rules checks
every entity: its size and power need, missing fields, overlaps with fire
roads and other camps, and whether it lies inside or outside given zones. The
editor is the state machine behind the map. It tracks edit mode, the current
mode (none, selected, editing the shape, editing the information) and the
selected entity. It keeps the popup and the on-screen line in step with that
state, and it sends create, update and delete requests to the entity
repository.

Files:

- `wrappers.dfy` (`Wrappers`): the `Option` type.
- `geometry.dfy` (`Geometry`): GeoJSON features and layer groups as
  identities. The two Turf predicates (`booleanOverlap`, `booleanContains`)
  are relations supplied by the caller. The predicates say which feature
  of which layer contains or overlaps a shape.
- `rule.dfy` (`Rules`): the `Rule` class with its mutable triggered flag and
  its derived severity, and the predicates behind each rule factory. It also
  holds `calculateAllowedArea`, the two layer-scanning loops as methods with
  loop invariants, and the fourteen-rule catalogue the editor installs. A
  rule's closure is the tagged value `Check`. `Triggers` states what each
  tag decides. The layer groups it reads are looked up by name in a `World`
  when the rule is evaluated, as the source's closures read live groups.
- `display.dfy` (`Display`): how the popup builds its issue list. Triggered
  rules are sorted by descending severity with a stable sort and classed as
  error, warning or info. It also holds the on-screen line: the area, unless
  a severity-3 rule is triggered, in which case it shows the last such rule's
  short message.
- `editor.dfy` (`EditorState`): the `Editor` class. Each method is proved
  against a transition function on the `State` record (`AfterSetMode`,
  `AfterToggleEditMode`, `AfterDelete`, `AfterNewLayer`, ...). Lemmas about
  those functions state the properties of the state machine. The invariant
  `Consistent` says that with no mode nothing is selected and the popup is
  closed. Every public-facing method preserves it.

The editor sees entities through a `Host`: each entity's area, whether it has
unsaved changes, and its triggered rules, plus JavaScript's number-to-string
conversion. Popups, shape editing (`pm.enable`/`pm.disable`), placement on
the map and repository calls are recorded as state: `popup`,
`shapeEditing`, `placed` and `requests`.

The text of the "Too big!" rule says the maximum is 500 m². The threshold it
applies is `MAX_SQM_FOR_ENTITY`, 1500 m². The model keeps both as written.

## Model

| member | source | states |
|---|---|---|
| Rules.Rule.constructor | src/entities/rule.ts:33-40 | a new rule carries the given level, texts and predicate and starts untriggered, so it reports severity 0 |
| Rules.Rule.Severity | src/entities/rule.ts:16-18 | the reported severity never exceeds the configured level; it equals the level while triggered and is non-zero only while triggered |
| Rules.Rule.CheckRule | src/entities/rule.ts:24-31 | after a check the triggered flag is exactly the verdict of the rule's predicate on the entity, and the severity is the level or 0 accordingly |
| Rules.CalculateAllowedArea | src/entities/rule.ts:96-111 | the allowed area never exceeds 1500 m²; for a non-negative need it lies between min(need, 1500) and min(1.5 × need, 1500) |
| Rules.CheckEntityBoundaries | src/entities/rule.ts:147-173 | the verdict is `shouldBeInside` when some feature of some layer contains the entity and `!shouldBeInside` when none does |
| Rules.IsGeoJsonOverlappingLayerGroup | src/entities/rule.ts:176-205 | the result is true exactly when some feature of some layer in the group overlaps the shape |
| Rules.NewRule | src/entities/rule.ts:63-145 | each factory call yields a fresh, untriggered rule carrying exactly the factory's configuration |
| Rules.GenerateRulesForEditor | src/entities/rule.ts:44-61 | the generator yields fourteen distinct fresh untriggered rules whose levels, texts and predicates are the catalogue's, in the listed order |
| Rules.TooBigIsBiggerThanNeeded | src/entities/rule.ts:63-111 | with a non-negative need, an entity over 1500 m² also triggers "bigger than needed", since the allowed area is capped at 1500 |
| Rules.BiggerAndSmallerExclusive | src/entities/rule.ts:90-121 | for a need between 0 and 1500 m², an area cannot be both bigger and smaller than needed |
| Rules.BiggerThanNeededAtCap | src/entities/rule.ts:90-111 | once the need reaches 1500 m², "bigger than needed" holds exactly when "too big" does |
| Rules.CalculatedTooBigAndNotSmallerIsTooBig | src/entities/rule.ts:63-121 | a need over 1500 m² together with an area that is not smaller than the need makes the entity too big |
| Rules.BoundaryRulesComplementary | src/entities/rule.ts:141-173 | the inside and not-inside boundary rules on the same group always give opposite verdicts |
| Rules.NoBufferNoBufferOverlap | src/entities/rule.ts:128-139 | an entity without a buffer layer never triggers the fire-safety distance rule |
| Rules.IsTooBig | src/entities/rule.ts:63-66 | the "Too big!" callback: fires exactly when the area exceeds 1500 m² |
| Rules.HasManyCoordinates | src/entities/rule.ts:68-73 | the "Many points." callback: fires exactly when the polygon's first ring has more than 8 positions |
| Rules.HasLargeEnergyNeed | src/entities/rule.ts:75-78 | the "Powerful." callback: fires exactly when the power need exceeds 7000 W |
| Rules.HasMissingFields | src/entities/rule.ts:80-83 | the "Missing info" callback: fires exactly when the name, the description or the contact info is empty |
| Rules.IsCalculatedAreaTooBig | src/entities/rule.ts:85-88 | the "Too many ppl/vehicles!" callback: fires exactly when the calculated need exceeds 1500 m² |
| Rules.IsBiggerThanNeeded | src/entities/rule.ts:90-94 | the "Bigger than needed." callback: fires exactly when the need is non-negative and the area exceeds the allowed area for it; a negative need (NaN in the source) never fires |
| Rules.IsSmallerThanNeeded | src/entities/rule.ts:113-121 | the "Too small." callback: fires exactly when the area is below the calculated need |
| Rules.Triggers | src/entities/rule.ts:63-173 | the verdict of each callback kind: the numeric and field checks above, overlap of the shape (or of the buffer, false without one) with a group, and containment compared with `shouldBeInside` |
| Rules.TooBigRule | src/entities/rule.ts:63-66 | the factory's configuration: level 3, its two texts, the too-big check |
| Rules.ManyCoordinatesRule | src/entities/rule.ts:68-73 | the factory's configuration: level 1, its two texts, the many-coordinates check |
| Rules.LargeEnergyNeedRule | src/entities/rule.ts:75-78 | the factory's configuration: level 1, its two texts, the power check |
| Rules.MissingFieldsRule | src/entities/rule.ts:80-83 | the factory's configuration: level 2, its two texts, the missing-fields check |
| Rules.CalculatedAreaTooBigRule | src/entities/rule.ts:85-88 | the factory's configuration: level 3, its two texts, the calculated-need check |
| Rules.BiggerThanNeededRule | src/entities/rule.ts:90-94 | the factory's configuration: level 2, its two texts, the bigger-than-needed check |
| Rules.SmallerThanNeededRule | src/entities/rule.ts:113-121 | the factory's configuration: level 2, its two texts, the smaller-than-needed check |
| Rules.OverlappingRule | src/entities/rule.ts:123-126 | a rule with the given level and texts that tests the entity's shape against the given group |
| Rules.BufferOverlappingRule | src/entities/rule.ts:128-139 | a rule with the given level and texts that tests the entity's buffer against the given group |
| Rules.EntityBoundariesRule | src/entities/rule.ts:147-154 | a rule with the given level and texts that tests containment in the given group against `shouldBeInside` |
| Rules.InsideBoundariesRule | src/entities/rule.ts:141-142 | the boundaries rule with `shouldBeInside` true |
| Rules.NotInsideBoundariesRule | src/entities/rule.ts:144-145 | the boundaries rule with `shouldBeInside` false |
| Rules.EditorCatalogue | src/entities/rule.ts:44-61 | the fourteen configurations the editor's generator lists, in order, with the groups and texts given there |
| Rules.CatalogueThresholds | src/entities/rule.ts:46-52 | the first seven installed rules have levels 3, 1, 1, 2, 2, 2, 3 and fire exactly at area > 1500, more than 8 positions, power > 7000, an empty field, bigger than needed, area < need, and need > 1500 |
| Rules.CatalogueGeometry | src/entities/rule.ts:53-59 | the last seven installed rules have levels 3, 3, 3, 2, 3, 1, 1 and fire exactly on fire-road overlap, buffer overlap with placed entities, outside the property border, outside the high-priority areas, inside the forbidden zones, and slope overlap or containment |
| Rules.NegativeNeedNeverBiggerThanNeeded | src/entities/rule.ts:90-111 | a negative calculated need never fires "bigger than needed", as the NaN comparison in the source is false |
| Display.Classify | src/editor/editor.ts:155-163 | a rule is shown as an error exactly when its severity is at least 3, as a warning exactly when it is 2 up to 3, and as info otherwise |
| Display.ClassifyMonotone | src/editor/editor.ts:155-163 | a more severe rule is never shown in a milder class than a less severe one |
| Display.Insert | src/editor/editor.ts:149 | inserting into a severity-descending list keeps it descending, adds exactly the one rule and puts it ahead of equal-severity rules |
| Display.SortBySeverity | src/editor/editor.ts:149 | the sorted rules are in non-increasing severity and are a permutation of the triggered rules |
| Display.InsertKeepsEqualOrder | src/editor/editor.ts:149 | insertion keeps the relative order of rules of each severity, with the inserted rule first among its equals |
| Display.SortIsStable | src/editor/editor.ts:149 | the sort is stable: the rules of each severity appear in the same order as in the triggered list |
| Display.IssuesOrdered | src/editor/editor.ts:149-163 | the popup lists one line per triggered rule, with errors before warnings before infos |
| Display.IssueList | src/editor/editor.ts:149-163 | the loop over the sorted rules builds exactly the classed issue list of the triggered rules |
| Display.LastSevere | src/editor/editor.ts:351-364 | no rule is found exactly when no triggered rule has severity 3 or more; otherwise the rule found has severity at least 3 and no later rule does |
| Display.OnScreenLineCases | src/editor/editor.ts:351-364 | without a severity-3 rule the on-screen line is the area followed by "m²"; with one it is the short message of the last such rule |
| EditorState.Editor.constructor | src/editor/editor.ts:19-26 | a new editor is out of edit mode, in mode none, with nothing selected, the popup closed and nothing placed or requested |
| EditorState.Editor.SetPopup | src/editor/editor.ts:121-322 | 'none' or no entity closes the popup; 'info' shows the entity's sorted, classed issue list and edit buttons in edit mode; 'edit-info' shows the form with save and delete in edit mode; nothing else changes |
| EditorState.Editor.UpdateOnScreenDisplay | src/editor/editor.ts:351-364 | the loop leaves the on-screen line at the area or at the last severity-3 rule's short message, and empty for no entity; nothing else changes |
| EditorState.Editor.OnLayerDoneEditing | src/editor/editor.ts:332-340 | finishing an edit disables shape editing of the entity, clears the on-screen line and sends one update request for it |
| EditorState.Editor.SetSelected | src/editor/editor.ts:106-118 | the previous entity is saved when it is left with unsaved changes, the line is refreshed in edit mode, and the next entity becomes selected |
| EditorState.Editor.SetMode | src/editor/editor.ts:35-103 | the new state is the `setMode` transition of the old one, and the editor's invariant is kept |
| EditorState.Editor.OnLayerClicked | src/editor/editor.ts:325-329 | clicking an entity leaves the editor in mode selected with that entity selected |
| EditorState.Editor.ToggleEditMode | src/editor/editor.ts:557-582 | the new state is the toggle transition of the old one, and the invariant is kept |
| EditorState.Editor.DeleteAndRemoveEntity | src/editor/editor.ts:438-445 | the new state is the delete transition of the old one, and the invariant is kept |
| EditorState.Editor.AddEntityToMap | src/editor/editor.ts:400-436 | the entity joins the placed entities and nothing else changes |
| EditorState.Editor.AddApiEntities | src/editor/editor.ts:631-637 | afterwards exactly the listed entities have been added to the placed ones, and nothing else changes |
| EditorState.Editor.OnNewLayerCreated | src/editor/editor.ts:367-398 | a drawn polygon is accepted exactly when its area is at most 1000 m²; the new state is the new-layer transition, and the invariant is kept |
| EditorState.SetModeRepeatIsNoop | src/editor/editor.ts:35-44 | asking for the current mode with the current selection changes nothing |
| EditorState.SetModeSelection | src/editor/editor.ts:65-103 | after a mode change the mode is the resolved one; mode none clears the selection and closes the popup; any other mode with an entity selects it; any other mode without one changes only the mode |
| EditorState.BlurResolution | src/editor/editor.ts:46-63 | 'blur' while editing a selected entity returns to selected, keeping the given entity or else the previous one; any other 'blur' leaves mode none, nothing selected and the popup closed |
| EditorState.SetModeSavesLeftEntity | src/editor/editor.ts:106-110 | a mode change sends one update request exactly when the previously selected entity is left with unsaved changes, and no other request |
| EditorState.SetModeFrame | src/editor/editor.ts:35-103 | a mode change never alters edit mode or the set of placed entities |
| EditorState.ClickSelects | src/editor/editor.ts:78-89 | asking for selected with an entity selects it; unless that was already the state, the popup shows that entity's issue list |
| EditorState.SetModeKeepsConsistent | src/editor/editor.ts:35-103 | every mode change keeps the invariant that with no mode nothing is selected and the popup is closed |
| EditorState.ToggleEditModeEffect | src/editor/editor.ts:557-582 | toggling flips edit mode and keeps the invariant; leaving edit mode outside selected clears mode and selection; otherwise mode and selection stay |
| EditorState.DeleteEffect | src/editor/editor.ts:438-445 | deleting leaves mode none with nothing selected, the entity no longer placed, and one delete request appended last |
| EditorState.NewLayerEffect | src/editor/editor.ts:379-397 | a polygon over 1000 m² changes nothing; an accepted one sends a create request, and a created entity is placed, selected and opened in edit-info mode; the invariant is kept |

## Left out

- Geometry: Turf's `booleanOverlap`, `booleanContains` and `area` are not
  modelled. The first two are caller-supplied relations on feature
  identities, and the drawn polygon's area is a parameter of
  `OnNewLayerCreated`.
- Rules.CalculateAllowedArea: `Math.pow(need, -0.2)` is a parameter `power`,
  so the bounds are stated only for the clamped extra fraction, whatever
  `power` returns. Floating point and NaN are not modelled; JavaScript
  numbers are exact reals. For a negative need the source's allowed area is
  NaN; the model returns a real there and states only the 1500 m² cap.
  `IsBiggerThanNeeded`, the only caller, tests the need's sign first, which
  gives the source's verdict (a comparison with NaN is false).
- Rules.HasMissingFields: JavaScript's falsy `null`/`undefined` fields are
  modelled as empty strings.
- Rules.GenerateRulesForEditor: the source returns a thunk that builds the
  list on each call. The model is the method that one call runs.
- The entity itself (area computation, `calculatedAreaNeeded`,
  `hasChanges`, buffer-layer construction, `checkAllRules`,
  `getAllTriggeredRules`) is outside this model. The editor reads it through
  `Host`.
- EditorState.Editor.SetPopup: the popup's HTML content besides the issue
  list and the presence of the buttons is not modelled: entity fields, the
  person and vehicle wording, and the form fields' input handlers. Popup
  positioning (`setLatLng`) is not modelled either.
- EditorState.Editor.SetSelected: `await onLayerDoneEditing` is treated as
  completing before the next statement. The model describes the state once
  the save has settled, with no other event interleaved. The repository's
  answer to an update, which re-adds the returned entity and removes the old
  layers, is not modelled. `requests` records only that the update was sent.
- EditorState.Editor.ToggleEditMode: the instructions screen awaited on
  entering edit mode and the draw-polygon control change no editor state and
  are not modelled.
- EditorState.Editor.AddEntityToMap: the click, marker-drag and
  vertex-removed handlers it binds, the buffer layer's group and opacity,
  and its rule check are not modelled. The zoom handler that hides buffers
  is not modelled either.
- The map-level click that sends 'blur' and the save button are callers of
  `SetMode(Blur, ...)`. `BlurResolution` covers them and they have no
  members of their own.
- src/map.js and src/loaders/loadPoi.js (map setup and point-of-interest
  loading) are not part of this model.
