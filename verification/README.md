# HandballStats Pro — action-recording rules in Dafny

This project models the rules the HandballStats Pro front end applies when a
handball match is recorded action by action, and proves what those rules
promise.

- **Enumerations and rules.** Source: `src/services/accionService.js`.
  - The seven string enumerations: team side, attack type, action origin, event, finalization detail, launch zone and event detail. Each is a datatype whose `Name()` is the exact string the front end sends.
  - The attack types a given origin allows.
  - The legal event details of each event.
  - Whether an event hands the ball to the other team.
- **The detailed recording page.** Source: `src/pages/MatchActionsView.jsx`.
  - The pure lookups: the allowed origins, the required fields, and when the court selector is shown.
  - The page state, modelled as the class `MatchActionsPage`: the draft action, the possession counter, the history and the selected team. The class methods are the page's handlers.
- **The quick-entry page.** Source: `src/pages/AccionForm.jsx`.
  - Its own next-possession and next-team rule.
  - Its zone grid.
  - The class `QuickEntryPage`, with the register and delete handlers.
- **The two court pickers.** Sources: `src/components/CourtGridSelector.jsx` and `src/components/HandballCourt.jsx`.
- **The statistics calculation.** Source: `src/pages/Estadisticas.jsx`. It is a method with a loop, proved against a recursive tally.
- **Smaller pieces:**
  - the match form's checks and field updates (`src/pages/PartidoForm.jsx`);
  - the route guard (`src/components/PrivateRoute.jsx`);
  - the club date normalisation (`src/services/clubService.js`).

The JavaScript built-ins this code relies on are written out in `JsBuiltins` with their ECMAScript meaning:

- `Array.prototype.find`;
- `String.prototype.trim`, with the ECMAScript white-space set;
- the first piece of `split`;
- the regular expression `/^\d+-\d+$/`;
- `Number` applied to a digit string.

Each module corresponds to one source file:

| file | module |
|---|---|
| `options.dfy` | `Options` |
| `js_builtins.dfy` | `JsBuiltins` |
| `actions.dfy` | `Actions` (the shared action record) |
| `accion_service.dfy` | `AccionService` |
| `match_actions_view.dfy` | `MatchActionsView` |
| `accion_form.dfy` | `AccionForm` |
| `court_grid_selector.dfy` | `CourtGridSelector` |
| `handball_court.dfy` | `HandballCourt` |
| `estadisticas.dfy` | `Estadisticas` |
| `partido_form.dfy` | `PartidoForm` |
| `private_route.dfy` | `PrivateRoute` |
| `club_service.dfy` | `ClubService` |

The two recording pages disagree in two places, and each is modelled as its own code does:

- **Possession number.** MatchActionsView moves the possession number on only after an action that changed possession. AccionForm moves it on after every action. `AccionForm.PossessionRulesDiverge` states the difference.
- **Zone-grid ids.** AccionForm's zone grid uses ids that are not the enumeration strings: `'Extremo'`, `'Primera_Oleada'`, … and the zone `'_7m'`. `AccionForm.GridIdsDivergeFromEnum` and `AccionForm.GridZonesDivergeFromEnum` state this.

## Model

| member | source | states |
|---|---|---|
| `AccionService.ParseSide` | src/services/accionService.js:12 | the two EQUIPO_ACCION strings are distinct and name exactly the two sides |
| `AccionService.ParseAttackType` | src/services/accionService.js:13 | the TIPO_ATAQUE strings are pairwise distinct; a string names an attack type iff it is one of them |
| `AccionService.ParseOrigin` | src/services/accionService.js:14 | the four ORIGEN_ACCION strings are pairwise distinct |
| `AccionService.ParseEvent` | src/services/accionService.js:15 | the four EVENTO strings are pairwise distinct |
| `AccionService.ParseFinalization` | src/services/accionService.js:16 | the nine DETALLE_FINALIZACION strings are pairwise distinct |
| `AccionService.ParseZone` | src/services/accionService.js:17 | the three ZONA_LANZAMIENTO strings are pairwise distinct |
| `AccionService.ParseEventDetail` | src/services/accionService.js:18 | the twelve DETALLE_EVENTO strings are pairwise distinct |
| `AccionService.SevenMetreNameShared` | src/services/accionService.js:14-16 | the seven-metre origin and the seven-metre finalization share the string '_7m'; no other origin and finalization share one |
| `AccionService.ValidTipoAtaque` | src/services/accionService.js:27-32 | a seven-metre origin allows only a positional attack; any other origin string allows both attack types; no duplicates |
| `AccionService.ValidDetalleEvento` | src/services/accionService.js:37-48 | a detail is offered for an event iff it sub-classifies that event; a goal or any other string gets none; no duplicates |
| `AccionService.DetalleEventoCounts` | src/services/accionService.js:37-48 | 2 details for a saved shot, 2 for a missed shot, 8 for a turnover, 0 otherwise |
| `AccionService.DetalleEventoDisjoint` | src/services/accionService.js:39-44 | no detail is legal for two different events |
| `AccionService.DetalleEventoCover` | src/services/accionService.js:18-48 | every detail is legal for its own event, every listed string is a detail, and the lists hold 12 entries in all |
| `AccionService.ShouldChangePossession` | src/services/accionService.js:53-61 | possession is kept iff the event is a saved shot, or a missed shot whose detail is 'Palo'; every other event, unknown strings included, changes it |
| `AccionService.SavedShotKeepsPossession` | src/services/accionService.js:54-56 | a saved shot never changes possession, whatever its detail |
| `AccionService.MissedShotChangesUnlessPost` | src/services/accionService.js:57-60 | a missed shot changes possession iff its detail is not 'Palo' |
| `AccionService.GoalAndTurnoverChangePossession` | src/services/accionService.js:60 | a goal and a turnover change possession whatever the detail |
| `AccionService.LegalPairsChangePossession` | src/services/accionService.js:37-61 | on every legal (event, detail) pair, possession changes iff the event is a turnover or the detail is 'Fuera_Directo' |
| `Actions.Choices.With` | src/pages/MatchActionsView.jsx:100 | `{ ...prev, [field]: value }` sets the named field and keeps every other field |
| `MatchActionsView.NextPosesion` | src/pages/MatchActionsView.jsx:61-64 | 1 for an empty history; otherwise the last action's possession or one more, and one more exactly when the last action changed possession |
| `MatchActionsView.FoldedPosesion` | src/pages/MatchActionsView.jsx:61-64 | the reference numbering: 1 plus the number of possession changes so far, never below 1 |
| `MatchActionsView.NextPosesionIsFolded` | src/pages/MatchActionsView.jsx:61-64 | on a well-numbered history, the number computed from the last action is the reference number |
| `MatchActionsView.AppendKeepsNumbering` | src/pages/MatchActionsView.jsx:141-148 | recording an action with the suggested number keeps the history well numbered; the next number rises by 1 iff the action changed possession |
| `MatchActionsView.FoldedPosesionMonotone` | src/pages/MatchActionsView.jsx:141-143 | possession numbers never decrease and rise by at most one per action |
| `MatchActionsView.AvailableOrigenAccion` | src/pages/MatchActionsView.jsx:168-180 | an empty history offers only continuous play; after a change of possession, continuous play or a seven-metre throw; otherwise only the two rebounds |
| `MatchActionsView.ReboundAfterRetainedShot` | src/pages/MatchActionsView.jsx:175-179 | after a saved shot or a shot off the post (flagged by the rule), only the rebound origins are offered |
| `MatchActionsView.SevenMetreOnlyAfterChange` | src/pages/MatchActionsView.jsx:175-176 | the seven-metre origin is offered only right after a change of possession |
| `MatchActionsView.IsFieldRequired` | src/pages/MatchActionsView.jsx:182-192 | the finalization and zone are required iff the event is a shot or goal; the detail iff it is a saved shot, missed shot or turnover; every other field always |
| `MatchActionsView.DetailRequiredIffOffered` | src/pages/MatchActionsView.jsx:187-188 | the detail is required exactly when getValidDetalleEvento offers some detail |
| `MatchActionsView.RequiredFieldsPerEvent` | src/pages/MatchActionsView.jsx:182-192 | over the four events: finalization and zone for all but a turnover, detail for all but a goal |
| `MatchActionsView.ShouldShowCourtSelector` | src/pages/MatchActionsView.jsx:194-196 | the court is shown iff the event is a chosen shot or goal, i.e. iff the zone is required |
| `MatchActionsView.FieldChange` | src/pages/MatchActionsView.jsx:99-114 | the updater: the field takes the value, the attack type and the origin empty the finalization, the event empties detail, finalization and zone, every other field is kept |
| `MatchActionsView.ClearingKeepsChoicesOffered` | src/pages/MatchActionsView.jsx:98-115 | after any change, an event detail that getValidDetalleEvento offered, a finalization HandballCourt drew for the attack type and a zone picked on the shown court are still offered, unless the change set that field itself |
| `MatchActionsView.EventChangeInvalidatesDetail` | src/pages/MatchActionsView.jsx:107-108 | the event's clearing of the detail is needed: a chosen detail is offered under its own event only |
| `MatchActionsView.AttackChangeInvalidatesFinalization` | src/pages/MatchActionsView.jsx:103-105 | the attack type's clearing of the finalization is needed: across the 'Contraataque' test no chosen finalization is drawn any more |
| `MatchActionsView.EventChangeInvalidatesZone` | src/pages/MatchActionsView.jsx:107-110 | the event's clearing of the zone is needed: a zone is picked only while the court is shown |
| `MatchActionsView.GoalKeepsStaleFlagAsWritten` | src/pages/MatchActionsView.jsx:82-90 | as written, a goal draft keeps cambioPosesion false although shouldChangePossession says true |
| `MatchActionsView.DerivedCambioAsWritten` | src/pages/MatchActionsView.jsx:82-90 | as written, a draft without a detail keeps its flag, and that is the only case where it differs from the corrected derivation |
| `MatchActionsView.DerivedCambio` | src/pages/MatchActionsView.jsx:82-90 | corrected: once the event (and its detail, when one is required) is chosen, the flag equals shouldChangePossession; before that it is kept |
| `MatchActionsView.DerivedCambioAgreesWithDetail` | src/pages/MatchActionsView.jsx:83-88 | with both the event and its detail set, the correction and the code as written agree |
| `MatchActionsView.GoalChangesPossession` | src/pages/MatchActionsView.jsx:82-90 | under the correction a goal draft always carries a change of possession |
| `MatchActionsView.BlankDraft` | src/pages/MatchActionsView.jsx:146-157 | the reset draft keeps the match and possession, empties every text field, and clears cambioPosesion |
| `MatchActionsView.MatchActionsPage.constructor` | src/pages/MatchActionsView.jsx:27-44 | initial state: no history, possession 1, empty draft; the counter tracks the history |
| `MatchActionsView.MatchActionsPage.Load` | src/pages/MatchActionsView.jsx:58-69 | a non-empty history sets the counter from its last action (+1 iff it changed possession) and the draft takes the counter |
| `MatchActionsView.MatchActionsPage.HandleFieldChange` | src/pages/MatchActionsView.jsx:98-115 | the draft's choices become `FieldChange` of the old ones and nothing else changes, so an offered detail, finalization or zone stays offered unless it is the field set |
| `MatchActionsView.MatchActionsPage.SyncCambioPosesion` | src/pages/MatchActionsView.jsx:82-90 | the draft's flag becomes the corrected derivation; nothing else changes |
| `MatchActionsView.MatchActionsPage.HandleTeamSelect` | src/pages/MatchActionsView.jsx:117-124 | the team is selected and the draft takes it with the current possession |
| `MatchActionsView.MatchActionsPage.HandleSubmitAction` | src/pages/MatchActionsView.jsx:126-161 | called only with an event chosen (the button of line 485); after a save, counter and reset draft rise by 1 iff the draft changed possession, the draft is blank and no team is selected; the counter keeps tracking the history; a failed request changes nothing |
| `AccionForm.DefaultChoices` | src/pages/AccionForm.jsx:128-138 | the reset form: the given team, a positional goal from continuous play, no finalization, zone or detail |
| `AccionForm.NextTeam` | src/pages/AccionForm.jsx:63-65 | the team differs from the last action's only if that action changed possession, and then it is a side and not the last one |
| `AccionForm.NextTeamFlipsOnChange` | src/pages/AccionForm.jsx:63-65 | the next team is a side again, and differs from the last action's iff that action changed possession |
| `AccionForm.NextTurn` | src/pages/AccionForm.jsx:59-73 | an empty history starts at possession 1 with 'LOCAL'; otherwise one past the last possession, whatever the action did, with the next team |
| `AccionForm.PossessionRulesDiverge` | src/pages/AccionForm.jsx:59-65 | the quick-entry number equals MatchActionsView's iff the last action changed possession, and is one higher otherwise |
| `AccionForm.QuickNumberingCountsActions` | src/pages/AccionForm.jsx:61 | numbering by the quick-entry rule gives the i-th action possession i+1 |
| `AccionForm.GetZonasGrid` | src/pages/AccionForm.jsx:188-205 | five groups for 'Posicional', otherwise four fast-break groups each offering all three zones; ids distinct; every group has a zone |
| `AccionForm.PositionalZones` | src/pages/AccionForm.jsx:189-196 | the positional ids in order (exterior, pivot, penetration, wing, 7m); pivot only in Centro, wing only in Izquierda/Derecha, 7m only in '_7m', exterior and penetration everywhere |
| `AccionForm.CounterAttackGrid` | src/pages/AccionForm.jsx:197-204 | for any other attack type the ids are Contragol, Primera_Oleada, Segunda_Oleada, Tercera_Oleada in that order, each offered in all three zones |
| `AccionForm.GridIdsDivergeFromEnum` | src/pages/AccionForm.jsx:191-202 | a grid id is not a DETALLE_FINALIZACION string iff it is 'Extremo' or one of the three wave ids |
| `AccionForm.GridZonesDivergeFromEnum` | src/pages/AccionForm.jsx:191-202 | a grid zone is not a ZONA_LANZAMIENTO string iff it is '_7m' |
| `AccionForm.QuickEntryPage.constructor` | src/pages/AccionForm.jsx:28-41 | the initial form for possession 1 and 'LOCAL', with the header showing the form's team |
| `AccionForm.QuickEntryPage.SetTurn` | src/pages/AccionForm.jsx:67-72 | possession and team are set on the form and in the header together |
| `AccionForm.QuickEntryPage.Load` | src/pages/AccionForm.jsx:59-73 | a non-empty history sets the next possession and team; an empty one changes nothing |
| `AccionForm.QuickEntryPage.SetQuickValue` | src/pages/AccionForm.jsx:87-92 | exactly the named field changes |
| `AccionForm.QuickEntryPage.SelectZone` | src/pages/AccionForm.jsx:95-101 | the finalization and the zone change together and nothing else does |
| `AccionForm.QuickEntryPage.RegistrarAccionRapida` | src/pages/AccionForm.jsx:104-151 | refused with nothing changed iff the finalization or zone is empty; after a save, the form is reset for the next possession and team |
| `AccionForm.QuickEntryPage.EliminarAccionRapida` | src/pages/AccionForm.jsx:154-185 | after a deletion the next possession and team are derived again; an emptied history restarts at 1 and 'LOCAL' |
| `CourtGridSelector.ActiveGridLayout` | src/components/CourtGridSelector.jsx:27-29 | the positional layout iff the attack type is 'Posicional', the counter-attack one otherwise |
| `CourtGridSelector.GetCellDetails` | src/components/CourtGridSelector.jsx:32-49 | a cell has a button iff some entry names its column or fills its row; an entry naming the column wins; otherwise the first row-filling entry |
| `CourtGridSelector.EveryCellFilled` | src/components/CourtGridSelector.jsx:111-116 | all 4 x 3 cells show a button under both layouts |
| `CourtGridSelector.NamedEntryWins` | src/components/CourtGridSelector.jsx:36-38 | the only entry naming a cell's column is that cell's button, whatever fills the row |
| `CourtGridSelector.FirstFillerWins` | src/components/CourtGridSelector.jsx:41-46 | with no entry naming the column, the first entry filling the row is the button |
| `CourtGridSelector.AloneInRowWins` | src/components/CourtGridSelector.jsx:32-49 | an entry alone in its row and filling it is the button of each of that row's cells |
| `CourtGridSelector.SevenMetreCell` | src/components/CourtGridSelector.jsx:8 | positional row 1: the middle cell is the seven-metre throw |
| `CourtGridSelector.WingCells` | src/components/CourtGridSelector.jsx:7 | positional row 1: the two side cells are the wings |
| `CourtGridSelector.LayoutMatchesAttack` | src/components/CourtGridSelector.jsx:6-29 | every cell shows a fast-break detail iff the attack type is not 'Posicional' |
| `CourtGridSelector.Cell` | src/components/CourtGridSelector.jsx:113 | the button a cell shows |
| `CourtGridSelector.IsSelected` | src/components/CourtGridSelector.jsx:121 | a cell is selected iff the selected zone string names its column's zone and the selected detail string names its button's detail |
| `CourtGridSelector.ClickCell` | src/components/CourtGridSelector.jsx:119-127 | a click hands over the zone of the cell's column (0, 1, 2 = Izquierda, Centro, Derecha) and the cell's detail |
| `CourtGridSelector.PositionalCell` | src/components/CourtGridSelector.jsx:6-12 | the positional lookup gives the detail drawn in each cell |
| `CourtGridSelector.CounterAttackCell` | src/components/CourtGridSelector.jsx:15-20 | the counter-attack lookup gives the detail drawn in each cell |
| `CourtGridSelector.CellDetail` | src/components/CourtGridSelector.jsx:32-49 | for either layout, the lookup shows exactly the picture of the court |
| `CourtGridSelector.DrawnDetailsDistinct` | src/components/CourtGridSelector.jsx:6-20 | no detail is drawn twice in one column |
| `CourtGridSelector.ClickSelectsThatCellOnly` | src/components/CourtGridSelector.jsx:121 | once the clicked pair is the selection, a cell is selected iff it is the clicked cell |
| `HandballCourt.AvailableDetalle` | src/components/HandballCourt.jsx:15-32 | 'Contraataque' offers exactly the four fast-break details, anything else ('' included) exactly the five positional ones |
| `HandballCourt.ZonaOptionsAreTheZones` | src/components/HandballCourt.jsx:34-38 | exactly the three zones, once each |
| `HandballCourt.HandleZoneClick` | src/components/HandballCourt.jsx:40-44 | the zone is forwarded iff the court is not disabled |
| `HandballCourt.HandleDetalleClick` | src/components/HandballCourt.jsx:46-50 | the detail is forwarded iff the court is not disabled |
| `HandballCourt.PickersDisagreeOffEnum` | src/components/HandballCourt.jsx:16 | for an attack type that is neither enumeration value, the grid shows only details this court does not offer |
| `HandballCourt.PickersAgreeOnEnum` | src/components/HandballCourt.jsx:15-32 | for either attack type, every detail the grid shows is offered by this court |
| `Estadisticas.PartidosEquipo` | src/pages/Estadisticas.jsx:47-50 | exactly the matches where the team is the associated local or visitor |
| `Estadisticas.Score` | src/pages/Estadisticas.jsx:61-62 | a result is read iff it is present and matches digits-hyphen-digits |
| `Estadisticas.Contribution` | src/pages/Estadisticas.jsx:61-71 | as local the left number is scored and the right received, otherwise swapped; a match without a result adds nothing |
| `Estadisticas.Tally` | src/pages/Estadisticas.jsx:60-73 | the totals of the `forEach`, taken in order; at most one counted match per match |
| `Estadisticas.SumarResultados` | src/pages/Estadisticas.jsx:56-73 | the loop's three counters end as the totals over the team's matches, taken in order |
| `Estadisticas.CalcularEstadisticas` | src/pages/Estadisticas.jsx:41-90 | no matches and no counted results are the two errors; otherwise the totals over the team's matches, with a positive count |
| `Estadisticas.WithResult` | src/pages/Estadisticas.jsx:61 | the matches whose result is counted |
| `Estadisticas.TallyCountsResults` | src/pages/Estadisticas.jsx:71 | the match count is the number of matches with a well-formed result |
| `Estadisticas.TallyConservesGoals` | src/pages/Estadisticas.jsx:60-73 | goals scored plus goals received equal both numbers summed over the counted results |
| `Estadisticas.HeadToHeadMirrors` | src/pages/Estadisticas.jsx:64-70 | over matches between two associated teams, what one scores the other receives |
| `Estadisticas.OtherTeamsDoNotCount` | src/pages/Estadisticas.jsx:47-50 | a match the team is not associated with does not enter its statistics |
| `Estadisticas.InvolvedMatchesAreKept` | src/pages/Estadisticas.jsx:47-50 | a match of the team is kept once, at the end, so with `OtherTeamsDoNotCount` the filter keeps each of the team's matches once and in order |
| `Estadisticas.WithResultSnoc` | src/pages/Estadisticas.jsx:61 | a match with a well-formed result is kept once at the end, any other is dropped |
| `Estadisticas.TallySnoc` | src/pages/Estadisticas.jsx:60-73 | one more match adds its contribution to the totals |
| `JsBuiltins.ParseScore` | src/pages/Estadisticas.jsx:61-62 | the two numbers are read iff the text matches `^\d+-\d+$`, and are the values of the digits before and after the hyphen |
| `JsBuiltins.Trim` | src/pages/PartidoForm.jsx:71 | trim removes exactly the leading and trailing white space; the result is empty iff the text is blank |
| `JsBuiltins.PrefixBefore` | src/services/clubService.js:22 | `split(c)[0]` is the prefix before the first `c`, or everything |
| `JsBuiltins.Find` | src/components/CourtGridSelector.jsx:36-41 | `find` gives None iff no element satisfies the test, otherwise an element that does with none before it |
| `PartidoForm.ValidatePartido` | src/pages/PartidoForm.jsx:71-82 | a blank rival is refused first; then a non-blank result that does not match `^\d+-\d+$` as typed is refused; everything else is accepted |
| `PartidoForm.BlankResultAccepted` | src/pages/PartidoForm.jsx:76 | an empty or whitespace-only result passes |
| `PartidoForm.PaddedScoreTrimsToScore` | src/pages/PartidoForm.jsx:76 | " 2-1" trims to a well-formed score |
| `PartidoForm.PaddedResultRefused` | src/pages/PartidoForm.jsx:76-82 | any non-blank result that starts or ends with white space is refused (" 2-1" among them), as the pattern is tested on the untrimmed text |
| `PartidoForm.AcceptedResultIsCounted` | src/pages/PartidoForm.jsx:76-82 | a non-blank result the form accepts is one the statistics count |
| `PartidoForm.PartidoFormPage.constructor` | src/pages/PartidoForm.jsx:13-20 | the empty form of a new match |
| `PartidoForm.PartidoFormPage.Load` | src/pages/PartidoForm.jsx:37-46 | the stored match fills the form, the date cut at its first 'T', a missing result or competition as '' |
| `PartidoForm.PartidoFormPage.HandleChange` | src/pages/PartidoForm.jsx:57-63 | the named input takes `checked` for a checkbox and `value` otherwise; every other input keeps its value |
| `PartidoForm.PartidoFormPage.HandleSubmit` | src/pages/PartidoForm.jsx:65-82 | the checks on the current form give the validation outcome |
| `PrivateRoute.Route` | src/components/PrivateRoute.jsx:5-13 | no user goes to /login whatever the roles; a user whose role a given list lacks goes to /inicio; everyone else sees the page |
| `PrivateRoute.EmptyRoleListAdmitsNobody` | src/components/PrivateRoute.jsx:9 | an empty role list is truthy and admits no one |
| `PrivateRoute.MoreRolesAdmitMore` | src/components/PrivateRoute.jsx:9-12 | listing more roles never shuts out a user who was admitted |
| `PrivateRoute.NoListAdmitsMost` | src/components/PrivateRoute.jsx:9-12 | without a role list every logged-in user passes |
| `ClubService.TruncateDate` | src/services/clubService.js:22 | the part before the first 'T', or '' for a missing date |
| `ClubService.GetClubById` | src/services/clubService.js:17-24 | the date is truncated and every other field is kept |
| `ClubService.UpdateClub` | src/services/clubService.js:27-33 | the date gets 'T00:00:00' appended and every other field is kept |
| `ClubService.UpdateThenGetRoundTrip` | src/services/clubService.js:22-30 | for a date without 'T', reading back what is sent gives the form again |
| `ClubService.TruncateDateIdempotent` | src/services/clubService.js:22 | truncating twice is truncating once |

## Left out

- HTTP requests are not modelled: every axios call and service wrapper, and the request side of `clubService.js`. A reloaded history is a parameter of the handler that uses it, and None stands for a failed request.
- React scheduling is not modelled: effects, async orchestration, loading and saving flags, message texts, and the two-second timer of the quick-entry page.
- MatchActionsView.MatchActionsPage.Load: the draft takes the freshly computed counter. The code at `MatchActionsView.jsx:66-69` reads `currentPosesion` from a stale closure and so keeps the initial 1; the model takes the intended value from line 63.
- MatchActionsView.ClearingKeepsChoicesOffered: the origin's clearing of the finalization (MatchActionsView.jsx:103) is kept in `FieldChange`, but no choice the page offers depends on the origin: the court draws finalizations by attack type only, and the check the clearing would serve is `getValidDetalleFinalizacion`, which is not part of this model.
- MatchActionsView.MatchActionsPage.HandleSubmitAction: `MatchActionsView.jsx:13` and `16` import `getValidDetalleFinalizacion` and `validateAction`, which `accionService.js` does not export. As written the import does not resolve; even taken as an undefined binding, the call at line 128 throws inside the `try`, so every submit ends in the catch and `createAccion` is never reached (the effect at line 94 throws the same way). The model takes the handler as if the validation call were absent: no validation gate, and `getValidDetalleFinalizacion` is not modelled.
- AccionForm.QuickEntryPage.Load: `AccionForm.jsx:10` imports `getAccionEnums`, which `accionService.js` does not export. As written the import does not resolve; even taken as an undefined binding, the call at line 55 throws before lines 59-73 run, so loading never sets the turn. The model takes the load as if that call succeeded; the enumerations it would fetch are not used by the modelled logic.
- AccionForm.QuickEntryPage.Load, AccionForm.QuickEntryPage.RegistrarAccionRapida and AccionForm.QuickEntryPage.EliminarAccionRapida: `getAccionesByPartido` (`accionService.js:6`) resolves to the axios response, which `api.js` passes through unchanged, and `AccionForm.jsx:51`, `118` and `157` use that response as the list of actions (MatchActionsView reads `.data`, lines 58 and 138). As written, `.length` of the response is undefined: Load never sets the turn, a registration fails at line 123 after the save and lands in the catch without resetting the form, and a deletion always restarts at possession 1 and 'LOCAL'. The model's `history`/`reloaded` parameter is the list the response carries, i.e. the intended `.data`.
- The averages and `toFixed` of the statistics page are floating point and are not modelled. Only the integer totals and the count are kept.
- Estadisticas.CalcularEstadisticas: the selected team arrives as an integer, so `Number(selectedEquipo)` on the select's text is not modelled.
- JsBuiltins.ParseScore: `Number` is exact here, so the double rounding of digit strings above 2^53 is not modelled.
- Labels, colours, SVG positions and the `hoveredZone` hover state of the court components are pure display and are not modelled.
- `CourtGridSelector`'s `onSelection` has no caller among the modelled pages (MatchActionsView uses HandballCourt). A click is therefore modelled as the pair it hands over; the caller that stores it as the selection is not modelled.
- `ClubService.UpdateClub` takes the form's date as a string. A missing date would be sent as `"undefinedT00:00:00"`, and that case is not modelled.
- The save and navigation after a successful match-form check are not modelled.
- `PrivateRoute.Route` returns the decision; the rendered `Navigate` or `Outlet` element is not modelled.

## Findings

| source | as written | input that shows it | evidently intended | confidence | as-written member | corrected member |
|---|---|---|---|---|---|---|
| src/pages/MatchActionsView.jsx:82-90 | `cambioPosesion` is recomputed only when both `evento` and `detalleEvento` are non-empty; a goal takes no detail, so the flag keeps its previous value | a fresh draft with `evento = 'Gol'`, `detalleEvento = ''` and `cambioPosesion = false` stays false, while `shouldChangePossession('Gol', '')` is true; submitting it neither advances the possession nor offers the after-change origins | a goal, like any event whose required fields are chosen, carries `shouldChangePossession(evento, detalleEvento)` | not executed; high | `MatchActionsView.GoalKeepsStaleFlagAsWritten` | `MatchActionsView.DerivedCambio` |
