# trello-vision client core, in Dafny

The client of this Trello Power-Up lets a user bind a card to a "project", which is a card on another board. It shows that binding as a badge and can open the project. The Trello wiring, the XHR calls and the popups around it are host and network glue. The client's data steps are pure functions of snapshots it already holds. This project models those steps and proves what they promise. Host handles (`t.card`, `t.get`, `t.getAll`, `Trello.get`) become plain parameters.

- `common.dfy`: module `Common`, with `Option`, `StartsWith` and `StripPrefix`.
- `records.dfy`: module `Records`, with the six-field assignment record and the click-handler tag (`Callback`).
- `http.dfy`: module `Http`, with the backend URL, the request shapes and the 2xx rule that settles every request's promise.
- `badges.dfy`: module `Badges`, with the card badge (`getBadges`). It has a first-match function, a `while`-loop method proved against it, and lemmas.
- `projects.dfy`: module `Projects`, with the project-entry filter (`getProjectAssignedCards`). It keeps the source's three stages: prefix filter, property filter, then values. Lemmas tie the stages to a one-pass reference definition.
- `popup.dfy`: module `Popup`, with the card button's popup. The per-board card lists are joined and each card is mapped to an item. Choosing an item posts one assignment record.
- `navigation.dfy`: module `Navigation`, with the "Go to Project" button. It reads element 0 of the task data, or fails.

A shared-storage snapshot is a sequence of `(key, value)` pairs in `Object.keys` order. A stored value is a record whose `id`, `url` and `name` are each optional. Comparing `taskId` with the card id is string equality.

## Model

| member | source | states |
|---|---|---|
| `Http.Settle` | public/js/client.js:102-108 | the promise resolves with the payload if and only if `200 <= status < 300`, and otherwise rejects with the status text (the same rule at lines 122, 142 and 307) |
| `Http.SetTaskSettled` | public/js/client.js:141-147 | the assignment post resolves with `"done"` exactly on a 2xx status, otherwise rejects with the status text |
| `Http.TaskDataRequest` | public/js/client.js:95-100 | a body-less GET whose URL is the backend URL, then `/tasks/`, then the task id; removing that prefix gives the id back |
| `Http.BoardDataRequest` | public/js/client.js:114-119 | a body-less GET whose URL is the backend URL, then `/boards/`, then the board id; removing that prefix gives the id back |
| `Http.SetTaskRequest` | public/js/client.js:133-156 | a POST to the backend URL plus `/tasks` with a JSON content-type header, carrying exactly the given six-field record |
| `Http.UpdateRequest` | public/js/client.js:299-314 | a GET of the backend URL plus `/update`, with no header and no body |
| `Http.TaskDataRequestInjective` | public/js/client.js:98 | two task ids with the same task URL are equal |
| `Http.TaskAndBoardUrlsDiffer` | public/js/client.js:98-117 | no task URL equals any board URL |
| `Badges.FirstMatch` | public/js/client.js:164-165 | returns the index of a record for the card with no such record before it, or none when no record is for the card |
| `Badges.FirstMatchUnique` | public/js/client.js:164-175 | any first-match index is the one `FirstMatch` returns, so the scan's answer is determined |
| `Badges.CardBadges` | public/js/client.js:160-186 | exactly one badge, titled `Project`, with the card-button callback; its text is the `projectName` of the first record for the card, or `None` when there is none |
| `Badges.GetBadges` | public/js/client.js:164-184 | the early-return scan over the snapshot returns exactly `CardBadges` |
| `Badges.BadgesDifferOnlyInText` | public/js/client.js:166-184 | for any two snapshots and cards, the badge lists have the same length and differ at most in the text |
| `Badges.LaterRecordsIrrelevant` | public/js/client.js:164-175 | appending records after the first match for the card does not change its badge |
| `Projects.KeepProjectKeys` | public/js/client.js:274-276 | keeps every entry of the snapshot whose key starts with `prj-` and no other, never more entries than given |
| `Projects.KeepProjectKeysAppend` | public/js/client.js:274-276 | filtering a split snapshot by key prefix gives the first part's kept entries followed by the second part's, so order is kept |
| `Projects.KeepComplete` | public/js/client.js:277-280 | keeps every entry of its input whose value has `id`, `url` and `name` and no other |
| `Projects.KeepCompleteAppend` | public/js/client.js:277-280 | filtering a split list by the three properties gives the first part's kept entries followed by the second part's, so order is kept |
| `Projects.Values` | public/js/client.js:281-283 | drops the keys: one value per entry, at the same position |
| `Projects.ProjectEntries` | public/js/client.js:270-284 | every returned value has all three properties, and there are no more values than snapshot entries |
| `Projects.ProjectEntriesIsQualifying` | public/js/client.js:273-283 | the three-stage pipeline equals the one-pass definition, which keeps each entry with a `prj-` key and a complete value, in snapshot order |
| `Projects.ProjectEntriesAppend` | public/js/client.js:273-283 | filtering a split snapshot gives the first part's values followed by the second part's, so key order is kept |
| `Projects.ProjectEntriesSingle` | public/js/client.js:273-283 | a single entry contributes its value exactly when its key starts with `prj-` and the value is complete |
| `Projects.ProjectEntriesMembership` | public/js/client.js:273-283 | a value is returned if and only if some entry with a `prj-` key and a complete value holds it |
| `Projects.RekeyedCompleteKept` | public/js/client.js:273-283 | complete values stored under `prj-` keys all come back unchanged and in order |
| `Projects.ProjectEntriesIdempotent` | public/js/client.js:273-283 | storing the result again under `prj-` keys and filtering returns the same list |
| `Projects.MixedSnapshotExample` | public/js/client.js:273-283 | from a complete `prj-` entry, an incomplete `prj-` entry and a complete entry under another key, only the first value is returned |
| `Popup.Flatten` | public/js/client.js:230 | the joined list's length is the sum of the per-board lengths |
| `Popup.FlattenAppend` | public/js/client.js:230 | joining split board lists gives the first part's cards followed by the second part's |
| `Popup.FlattenAt` | public/js/client.js:230 | card `j` of board `b` is at position (cards of the boards before `b`) + `j` of the joined list |
| `Popup.AssignmentFor` | public/js/client.js:244-249 | the record binds the current card id, card URL and board id to the project card's id, URL and name |
| `Popup.Items` | public/js/client.js:238-253 | one item per card in order; item `i` shows card `i`'s name and URL, and its callback posts card `i`'s assignment record |
| `Popup.PopupItems` | public/js/client.js:230-253 | the popup has as many items as all boards have cards together |
| `Popup.Choose` | public/js/client.js:243-251 | choosing an item sends a request exactly when its callback is an assignment post, and then it is the POST of that callback's record |
| `Popup.PopupItemAt` | public/js/client.js:230-253 | the item for card `j` of board `b` shows its name and URL, and choosing it POSTs to the backend's `/tasks` the six-field record for that card and nothing else |
| `Navigation.ProjectUrl` | public/js/client.js:194-196 | opens `projectUrl` of element 0 exactly when the task data is non-empty, and otherwise fails with no task record |
| `Navigation.GoToProject` | public/js/client.js:188-200 | requests the card's task URL; opens the first record's project URL if and only if the status is 2xx and there is a record; otherwise fails with the status text or with no task record |

## Left out

- XHR transport, JSON parsing and serialisation, and the network (public/js/client.js:95-158, 299-316). Only the request shapes and the status rule are modelled. The parsed body and the status are parameters.
- `authorizeApplication`, `Trello.authorize`, `TrelloPowerUp.initialize` and the capability handlers it registers (public/js/client.js:76-93, 320-383). These are host library calls, so their results are parameters.
- The start-up fetch of one fixed board's data (public/js/client.js:321). The resulting task-assignment list is the snapshot parameter of `Badges.CardBadges`.
- The `t.get` of the `my-project-boards` list (public/js/client.js:216) is a host call. It yields board ids, which are not modelled.
- The `Trello.get` calls of `/boards/{board}/cards` (public/js/client.js:219-221) are host library calls. Their answers are the per-board card lists given to `Popup.PopupItems`.
- `getProjectCards` (public/js/client.js:286-297) and its `Trello.get` of `/cards/{id}` are host library calls, and nothing in the client calls `getProjectCards`. It is the only caller of `getProjectAssignedCards`, so `Projects.ProjectEntries` models a function that is unreachable in the client as written.
- Promise chaining and `Promise.all`. The asynchrony adds nothing to the values computed.
- `window.open`, `t.popup` with its title and search options, `t.closePopup`, and `console.log`. These are UI side effects. `Navigation.Outcome` names the URL that would be opened.
- A popup item's callback ignores whether the post succeeds. The model records only which request it sends.
- `Badges.GetBadges`: `taskId == card_id` is JavaScript loose equality. The model compares strings, so a numeric `taskId` that loosely equals the card id is not modelled.
- `Projects.ProjectEntries`: the model takes the entries of an existing organization-shared map. When `t.getAll()` has no organization scope or no shared map, reading `data.organization.shared` (public/js/client.js:273) throws a TypeError, and that error path is not modelled.
- `Projects.ProjectEntries`: a stored value that is `null` or `undefined` makes `hasOwnProperty` throw, and a primitive value has none of the three properties. Only object values are modelled, with their three properties and nothing else.
- Backend records with missing fields (an `undefined` project name shown as badge text) are not modelled. Every `Assignment` field is a string.
- All of public/js/settings.js, the settings page's DOM handler and board listing.
