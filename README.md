# dokemon containers page and image API — a Dafny model

dokemon is a browser console for Docker hosts ("nodes"). This project models
two pieces of its logic:

- **The containers page** (`web/src/app/containers/containers.tsx`).
  - The port column: for every port binding, a label `ip:publicPort->privatePort/type` and, for a published port, a link whose host comes from the bind address, the node's `containerBaseUrl` override or the browser's location.
  - The rules that pick a row's state badge and its action buttons.
  - What the start, stop, restart and delete handlers do once their request has settled.
- **The image API of package dockerapi** (`pkg/dockerapi/image.go`).
  - `ImageList` turns Docker image summaries into `Image` records. It takes the name and tag from the first repository tag, then sorts the records by name in place.
  - `ImageRemove` turns an empty deletion response into the error "delete unsuccessful".
  - `ImagesPrune` picks the `dangling` filter and copies the prune report.

Modules:

- `Wrappers` holds `Option` and `Result`.
- `GoStrings` holds Go's `strings.Split` with a one-character separator and Go's `<` on strings. It proves that `Split` and `Join` are inverses and that `<` is a strict total order.
- `JsText` models how a template literal renders a port number or a missing value.
- `DockerImages` models `image.go`. Its mapping loops are methods over arrays with loop invariants. The sort is an in-place insertion sort on the array. Its contract is "sorted by name and a permutation".
- `PortLinks` models `getPortsHtml` as pure functions over the sequence of bindings. Each segment of a label is present exactly when its field is truthy, for every binding. It also includes a decoder for labels: for a binding whose address and type hold no '/', reading its label back gives exactly its truthy fields.
- `ContainerRows` models the badge, the action set, the short id and the table body.
- `ContainerActions` models the handlers. A class `ContainersPage` holds the page's state: the fetched list, the requests sent, the toasts shown and the delete dialog. Each handler is a method specified by a pure function of how its request settled (`StartEffect`, `FetchEffect`).

JavaScript truthiness is written out: an absent value, `""` and `0` count as absent. The browser location and the node's `containerBaseUrl` are parameters. Docker engine calls are not modelled: their results are inputs, and their errors are kept only as a message.

Behaviour of the code worth knowing:

- A binding with no `ip` is not treated as a wildcard. Neither comparison at containers.tsx:144 matches a missing `ip`, so it takes the else branch. Its link is `protocol//undefined:port`; see `PortLinks.MissingAddressLink`.
- Stop is offered for every state except `exited`, including `created` or `paused`. Only Restart and Start are restricted (containers.tsx:243-280).
- A failure toast carries whatever the response holds. There is no generic fallback message: a missing `errors.body` gives an `undefined` description. The start handler shows the whole response data, not `errors.body` (containers.tsx:73).
- If a failed stop or restart response is not JSON, `response.json()` rejects. No toast is shown and nothing is refetched. A `fetch` that itself rejects on a network failure (containers.tsx:80 and :105) ends the same way; there is no generic failure message.
- An empty `items` list is truthy, so it gives an empty table rather than "No data to display" (containers.tsx:211).

## Model

| member | source | states |
|---|---|---|
| `GoStrings.Split` | pkg/dockerapi/image.go:31 | `strings.Split` on one character: one more part than separators, and no part holds the separator |
| `GoStrings.JoinSplit` | pkg/dockerapi/image.go:31 | joining the parts of a split with the separator gives back the string |
| `GoStrings.SplitJoin` | pkg/dockerapi/image.go:31 | splitting a join of separator-free parts gives back the parts |
| `GoStrings.SplitInTwo` | pkg/dockerapi/image.go:31-32 | a string splits into exactly `[a, b]` iff it is `a + ":" + b` with no colon in `a` or `b` |
| `GoStrings.LessIrreflexive` | pkg/dockerapi/image.go:48 | no name sorts before itself |
| `GoStrings.LessTransitive` | pkg/dockerapi/image.go:48 | Go's `<` on strings is transitive |
| `GoStrings.LessTotal` | pkg/dockerapi/image.go:48 | of two different names, one is `<` the other |
| `GoStrings.LessAsymmetric` | pkg/dockerapi/image.go:48 | two names are never each `<` the other |
| `GoStrings.NotGreaterTransitive` | pkg/dockerapi/image.go:48 | "not after" is transitive, so adjacent order gives sortedness |
| `DockerImages.NameAndTag` | pkg/dockerapi/image.go:27-36 | no tags gives `<none>`/`<none>`; a first tag with exactly one colon is name + ":" + tag; any other count of colons gives `<none>`/`<none>` |
| `DockerImages.FirstTagOnly` | pkg/dockerapi/image.go:30-31 | tags after the first never change name or tag |
| `DockerImages.NameAndTagOfJoined` | pkg/dockerapi/image.go:31-35 | a tag `name:tag` with colon-free halves parses back to `(name, tag)` |
| `DockerImages.ToImage` | pkg/dockerapi/image.go:38-44 | `Id`, `Size` and `Created` are copied; name and tag come from the first repository tag |
| `DockerImages.InsertDown` | pkg/dockerapi/image.go:47-49 | moving one image into a sorted prefix leaves the prefix one longer and sorted, is a permutation, and leaves the rest alone |
| `DockerImages.SortByName` | pkg/dockerapi/image.go:47-49 | the array ends sorted by name (non-decreasing) and is a permutation of what it held |
| `DockerImages.ImageList` | pkg/dockerapi/image.go:20-51 | an engine error is returned; otherwise exactly one image per summary, sorted by name, a permutation of the mapped summaries |
| `DockerImages.ImageRemove` | pkg/dockerapi/image.go:60-69 | nil iff the response is a non-empty list; "delete unsuccessful" iff the response is an empty list; an engine error passes through |
| `DockerImages.DanglingFilter` | pkg/dockerapi/image.go:78-82 | the filter key is `dangling`; its value is `"false"` iff `All` is set and `"true"` otherwise |
| `DockerImages.ImagesPrune` | pkg/dockerapi/image.go:78-93 | the engine is asked with the dangling filter; its error passes through; otherwise deleted items are copied one to one in order, and the reclaimed space is unchanged |
| `JsText.NumberToString` | web/src/app/containers/containers.tsx:139-140 | a port number renders as non-empty decimal digits, with a leading zero only for 0 |
| `JsText.ParseNumberToString` | web/src/app/containers/containers.tsx:139-140 | the rendered digits read back as the number |
| `PortLinks.PortEntryOf` | web/src/app/containers/containers.tsx:136-168 | the caption is the label; it is a link iff the public port is truthy; a wildcard with an override links to `override:port`; a wildcard without one links to `protocol//hostname:port`; any other address links to `protocol//ip:port` |
| `PortLinks.PortsHtml` | web/src/app/containers/containers.tsx:134-173 | exactly one entry per binding, in the order of the bindings |
| `PortLinks.PortLabel` | web/src/app/containers/containers.tsx:136-141 | the label opens with `ip:` when the address is truthy, closes with `/type` when the type is, and is empty only when no field is truthy |
| `PortLinks.SegmentsPresentIffTruthy` | web/src/app/containers/containers.tsx:136-141 | for every binding, each of the four segments is present iff its field is truthy, and the label is their concatenation in order |
| `PortLinks.LabelRoundTrip` | web/src/app/containers/containers.tsx:136-141 | for a binding whose address and type hold no '/', reading its label back gives every truthy field and nothing for a falsy one |
| `PortLinks.BaseUrl` | web/src/app/containers/containers.tsx:143-150 | a wildcard address with a truthy override gives the override; otherwise `protocol//` followed by the page's host name for a wildcard, or by the rendered address for anything else |
| `PortLinks.OverrideIgnoresLocation` | web/src/app/containers/containers.tsx:143-152 | for a wildcard address with an override, the browser location plays no part |
| `PortLinks.PagePortIgnored` | web/src/app/containers/containers.tsx:144-146 | the page's own port never reaches a link |
| `PortLinks.ConcreteAddressIgnoresOverride` | web/src/app/containers/containers.tsx:148-150 | for any non-wildcard address, the node override plays no part |
| `PortLinks.MissingAddressLink` | web/src/app/containers/containers.tsx:144-152 | a published port with no address links to `protocol//undefined:port` |
| `PortLinks.ExampleLinks` | web/src/app/containers/containers.tsx:136-152 | `{0.0.0.0, 8080, 80, tcp}` is labelled `0.0.0.0:8080->80/tcp` and links to `https://host.example:8080`, or to `https://mybox.local:8080` with that override |
| `ContainerRows.BadgeVariantOf` | web/src/app/containers/containers.tsx:231-239 | the badge is destructive iff the state is `exited` |
| `ContainerRows.ActionsFor` | web/src/app/containers/containers.tsx:242-294 | Restart iff running; Start iff exited; Stop iff not exited; Delete always and last; no button twice |
| `ContainerRows.ExitedActions` | web/src/app/containers/containers.tsx:256-294 | an exited container offers Start and Delete only |
| `ContainerRows.RunningActions` | web/src/app/containers/containers.tsx:243-294 | a running container offers Restart, Stop and Delete |
| `ContainerRows.ActionsFollowState` | web/src/app/containers/containers.tsx:231-294 | buttons and badge depend on the reported state alone |
| `ContainerRows.ShortId` | web/src/app/containers/containers.tsx:227 | the shown id is the first twelve characters of the id, or all of a shorter one |
| `ContainerRows.RowOf` | web/src/app/containers/containers.tsx:220-294 | the row shows `ShortId(id)`, the name, state and status, exactly `PortsHtml` of its ports, the badge `BadgeVariantOf(state)` (destructive iff exited) and the button sequence `ActionsFor(state)` (Restart iff running, Start iff exited, Stop iff not exited, Delete last) |
| `ContainerRows.RowsOf` | web/src/app/containers/containers.tsx:218-229 | one row per container, in order |
| `ContainerRows.TableBodyOf` | web/src/app/containers/containers.tsx:211-219 | the placeholder iff the item list is missing, else the rows of the list |
| `ContainerActions.StartEffect` | web/src/app/containers/containers.tsx:55-77 | refetch iff the request resolved; an axios error gives a "Failed" toast with the response data; any other error gives nothing |
| `ContainerActions.FetchEffect` | web/src/app/containers/containers.tsx:88-101 | refetch iff the response is ok; on failure a "Failed" toast with `errors.body`; no toast only when the failure body is not JSON |
| `ContainerActions.ContainersPage.constructor` | web/src/app/containers/containers.tsx:49-51 | the page starts with the fetched list, no requests, no toasts and the delete dialog closed |
| `ContainerActions.ContainersPage.Dispatch` | web/src/app/containers/containers.tsx:88-101 | one request is sent; the list is replaced wholesale only on refetch; the effect's toast is appended |
| `ContainerActions.ContainersPage.HandleStartContainer` | web/src/app/containers/containers.tsx:55-77 | one POST to `/nodes/{nodeId}/containers/start`; the list changes only when the request resolved |
| `ContainerActions.ContainersPage.HandleStopContainer` | web/src/app/containers/containers.tsx:79-102 | one POST to `.../containers/stop`; the list changes only on an ok response |
| `ContainerActions.ContainersPage.HandleRestartContainer` | web/src/app/containers/containers.tsx:104-127 | one POST to `.../containers/restart`; the list changes only on an ok response |
| `ContainerActions.ContainersPage.HandleDeleteContainer` | web/src/app/containers/containers.tsx:129-132 | remembers the container and opens the delete dialog; sends nothing |
| `ContainerActions.StopThenRender` | web/src/app/containers/containers.tsx:79-102 | after a successful stop, the page holds the refetched list and the table has one row per refetched container, each row's buttons following that container's reported state, not an assumed `exited` |

## Left out

- Rendering: JSX markup, icons, table layout, `stopPropagation`, row-click navigation to the logs page, breadcrumbs and the loading screen. Only the decisions they display are modelled.
- HTTP transport: `apiBaseUrl()`, headers and JSON serialisation. A request is kept as its path and container id, and a response as how it settled.
- Asynchrony: `mutateContainers()` revalidates asynchronously. The model replaces the list at once with the list the node reports. A refetch that itself fails is not modelled. Neither are overlapping refetches, which can let an older answer overwrite a newer one.
- The delete confirmation dialog and its request are not part of this model; `HandleDeleteContainer` only opens it.
- Docker client creation and the calls `cli.ImageList`, `cli.ImageRemove` and `cli.ImagesPrune`: their results are inputs. For `ImageList` the `All` option is not modelled, because it only reaches the engine call.
- DockerImages.SortByName: Go's `sort.Slice` is a pattern-defeating quicksort; an insertion sort stands for it. Both promise the same thing (sorted by name, a permutation). Neither promises an order among equal names.
- PortLinks.LabelRoundTrip: the round trip covers only bindings whose address and type hold no '/'; for others the decoder may split at the wrong '/' (the label of an address `a/b` reads back differently). Segment presence itself is stated for every binding by `PortLinks.SegmentsPresentIffTruthy`.
- PortLinks.PagePortIgnored: rests on the browser giving `location.hostname` without the page's port; the model takes the host name as given.
- GoStrings.Less: compares characters by code point. Go compares UTF-8 bytes, which orders strings the same way.
- JsText.NumberToString: port numbers are whole and non-negative. JavaScript's rendering of fractional, negative or exponent-form numbers is not modelled.
- ContainerRows.ShortId: counts characters, where JavaScript's `substring` counts UTF-16 code units.
- Image sizes and creation times are unbounded integers rather than Go's `int64`. They are only copied.
- The other dialogs and editors (node base-URL and server-URL dialogs, the add-environment dialog, the compose project editor and its delete dialog) are not part of this model. They are form and network plumbing. The `NodeComposeProject` record has no behaviour.
