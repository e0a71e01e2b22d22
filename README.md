# Location screen state machine

This project models the only logic in the `App` component of a one-screen
Expo / React Native application that fetches the device position and shows it
on a map. The component keeps three state cells — `loading`, `errorMsg` and
`location` — and has two parts that use them:

- the fetch routine `getCurrentLocation`. It raises `loading`, asks
  expo-location for foreground permission and, only when the status is
  `granted`, asks for the current position. Then it stores the sample, or
  stores the `message` of whatever error reached its `catch`. Its `finally`
  lowers `loading`. The mount effect and the retry button's
  `refreshLocation` both do nothing else but call it.
- the render branch. It picks the loading view if `loading` is set, else the
  error view if `errorMsg` is truthy, else the map. The map is centred on the
  sample with spans of 0.01 and carries one marker on the sample.

Modules:

- `Wrappers` (wrappers.dfy): `Option`.
- `LocationProvider` (provider.dfy): the sample, the provider's replies
  (a permission status or a rejection, a position or a rejection), the
  requests one attempt makes (`Calls`) and how it ends (`Result`).
- `ScreenState` (screen.dfy): the cells as a value (`Cells`) with the pure
  transitions `Began`, `Settled` and `Fetched`. The class `Screen` holds the
  same cells as mutable fields. Its methods `BeginFetch`, `Settle`,
  `GetCurrentLocation`, `RefreshLocation` and `Mount` update them step by
  step, try/catch/finally included, and each is proved equal to its pure
  transition.
- `Render` (render.dfy): the view chosen for the cells (`View`) and the map
  data, plus the render branch exactly as written (`RenderAsWritten`).
- `Session` (session.dfy): fetches run one after another. It states how
  loading settles, which cell each outcome writes, that the error is sticky,
  and the order of the provider requests.

Modelling choices:

- The provider is an input. Each fetch receives `Replies`: the permission
  reply and the position reply the provider would give if asked. The
  position reply is used only after a grant.
- A rejected permission request is modelled too. It reaches the same `catch`
  as the other errors.
- `location == None` stands for the initial empty object `{}`.
- An error without a message makes `error?.message` undefined. The model
  stores it as `""`. Both are falsy, and the text is never shown.

Three consequences of the code worth knowing:

- A successful retry after a failure does not bring back the map. Nothing
  ever clears `errorMsg`, so the error view stays (`SuccessKeepsErrorView`,
  `ErrorSticky`).
- A failure without a message shows no text at all. `errorMsg` becomes
  falsy, so the error view is skipped (`BlankFailureSkipsErrorView`).
- Error stickiness is not absolute. A later failure whose message is empty or
  absent makes `errorMsg` falsy again, so the map view comes back.
  `ErrorSticky` therefore assumes no such failure, and
  `BlankFailureEndsStickiness` shows the case where it happens.

## Model

| member | source | states |
|---|---|---|
| `LocationProvider.Calls` | App.tsx:31-43 | Every attempt requests permission first. It requests the position, as the second call, exactly when the status is `granted` (`PermissionGranted`, the negation of `status !== 'granted'`). |
| `LocationProvider.Result` | App.tsx:31-54 | An attempt succeeds iff permission is granted and the position resolves, with that sample. A status other than `granted` fails with the fixed denial message. A rejected request fails with that request's message. |
| `LocationProvider.PositionIgnoredWithoutGrant` | App.tsx:33-40 | Without a grant, the position reply is never requested and cannot change the outcome. |
| `ScreenState.Initial` | App.tsx:24-26 | The cells start not loading, with an empty error and no sample. |
| `ScreenState.Began` | App.tsx:30 | Starting a fetch raises `loading` and changes nothing else. |
| `ScreenState.Settled` | App.tsx:31-57 | Settling always lowers `loading`. A success replaces the location and keeps `errorMsg`. A failure stores its message (`MessageText`: an absent `error?.message` is stored as the falsy `""`) and keeps the location. |
| `ScreenState.Fetched` | App.tsx:28-58 | A complete fetch equals settling from the state before it: the raised loading flag leaves no trace. |
| `ScreenState.Screen.constructor` | App.tsx:24-26 | The component's cells begin in the initial state. |
| `ScreenState.Screen.BeginFetch` | App.tsx:30 | The in-place `setLoading(true)` yields the `Began` state. |
| `ScreenState.Screen.Settle` | App.tsx:31-57 | The try/catch/finally body leaves the cells in the `Settled` state. It returns the requests made, in order. |
| `ScreenState.Screen.GetCurrentLocation` | App.tsx:28-58 | The fetch routine leaves the cells in the `Fetched` state and makes the requests `Calls` lists. |
| `ScreenState.Screen.RefreshLocation` | App.tsx:60-62 | Retry has the same effect on the cells and the same requests as one fetch. |
| `ScreenState.Screen.Mount` | App.tsx:64-66 | The mount effect has the same effect on the cells and the same requests as one fetch. |
| `ScreenState.MountScreen` | App.tsx:64-66 | Creating the component and running its effect fetches once from the initial cells, with exactly one permission request. |
| `Render.MapFor` | App.tsx:96-116 | The region centre and the marker coordinate both equal the sample's latitude and longitude. Both spans are 0.01. The title, pin colour and user-location flags are fixed. |
| `Render.View` | App.tsx:68-121 | Corrected render: the view choice is total and exclusive. Loading wins whatever the other cells hold. Otherwise a non-empty error gives the error view with that message. Otherwise the map view, drawn iff a sample is stored. |
| `Render.RenderAsWritten` | App.tsx:68-121 | The render as written throws exactly when neither loading nor error applies and no sample is stored. In every other case it returns the same view as `View`. |
| `Render.FirstRenderThrows` | App.tsx:95-111 | The initial cells, shown before the mount effect runs, make the as-written render throw. |
| `Render.BlankFailureWithoutSampleThrows` | App.tsx:54-111 | A failure without a message, before any sample was stored, makes the as-written render throw. |
| `Session.InFlightShowsLoading` | App.tsx:30-75 | While a fetch is in flight, the loading view shows. |
| `Session.RunSettles` | App.tsx:55-57 | After any non-empty run of fetches, loading is off and the loading view is gone. |
| `Session.DeniedFetch` | App.tsx:33-54 | A refused permission makes no position request. It stores exactly the denial message, keeps the location and shows the error view. |
| `Session.SuccessKeepsErrorView` | App.tsx:49-89 | A success after an error stores the sample, but the old error view stays. |
| `Session.BlankFailureSkipsErrorView` | App.tsx:54-91 | A failure with an empty or absent message keeps the location and selects the map view. |
| `Session.ErrorSticky` | App.tsx:25-91 | Once `errorMsg` is set, it stays set through any fetches that never fail blank. The map view is then never selected. |
| `Session.BlankFailureEndsStickiness` | App.tsx:54-91 | Denied, then located, then a blank failure shows the map at the stored sample. |
| `Session.LocationIsLastSample` | App.tsx:24-54 | After a run, the location is the last successful attempt's sample, or the earlier one if none succeeded. It is never cleared. |
| `Session.ErrorIsLastFailure` | App.tsx:25-54 | After a run, `errorMsg` is the last failed attempt's message, or the earlier one if none failed. |
| `Session.SessionCallOrder` | App.tsx:31-43 | Over a run: one permission request per fetch, one position request per granted fetch, and each position request comes right after a permission request. |

## Findings

| source | as written | input that shows it | evidently intended | confidence | as-written member | corrected member |
|---|---|---|---|---|---|---|
| App.tsx:95-111 | `location` starts as `{}`, which is truthy. So the `location &&` guard passes, and the marker's `location.coords.latitude` reads a property of `undefined` and throws. | The first render: not loading, no error, `location == {}`. It throws, so the render never commits, the mount effect never runs and no fetch starts. The same throw would follow a failure with an empty or absent message before any sample was stored. | Draw the map only when a sample is stored. Otherwise draw the bare container. | not executed; high | `Render.RenderAsWritten` (`Render.FirstRenderThrows`, `Render.BlankFailureWithoutSampleThrows`) | `Render.View` |

## Left out

- ScreenState.MountScreen: it, and every `Session` lemma that runs fetches from `Initial()` (such as `BlankFailureEndsStickiness`), assume that the first render committed so that the mount effect ran. Only the corrected render `View` commits there; with the render as written the first render throws and no fetch ever starts.
- Concurrency: fetches do not overlap. A retry tapped while a fetch is in flight, and a stale result overwriting a newer one, are not modelled. Each fetch is `BeginFetch` followed by one `Settle`.
- expo-location internals: `requestForegroundPermissionsAsync` and `getCurrentPositionAsync` appear only as the replies given to a fetch.
- Map widget behaviour: drawing, gestures, and what `showsUserLocation` and `followsUserLocation` do live in the widget. Only the props handed to it are modelled.
- The marker's description text (App.tsx:114): it uses floating-point `toFixed(4)` formatting, so it is not part of `MarkerData`.
- Number representation: coordinates are `real`. They are copied, never computed, so no floating-point behaviour matters.
- Sample fields other than latitude and longitude (accuracy, altitude, altitudeAccuracy, heading, speed, timestamp): the code never reads them.
- Logging, presentation and styling: `console.log`, `Platform.OS`, `StatusBar`, `StyleSheet` and the activity indicator's size and colour.
- Thrown values that are not errors: `error?.message` is modelled as a present or absent string.
