# HTML display content and location provider, modelled in Dafny

This project models two small parts of the Urban Airship Android SDK.

- **`UALocationProvider`** (module `LocationProvider`, file `location_provider.dfy`).
  It holds an ordered list of location adapters (fused before standard).
  On first use it runs `connect()`: one scan that selects the first available adapter.
  The same scan cancels the stale pending location request of every available adapter.
  Every operation runs `connect()` first, then delegates to the selected adapter.
  With no adapter selected, it does nothing.
  The model is a class with the source's fields (`selected` stands for `availableAdapter`, as a position in the list, plus `isConnected`).
  Two further fields stand for the platform:
  - `pending` is the pending-intent registry, the set of request codes that have a pending intent;
  - `trace` is the sequence of calls made on adapters, availability checks included. Reads of an adapter's request code (`getRequestCode()`, a getter) are not recorded.
  A lookup with `FLAG_NO_CREATE` only tests membership in `pending`.
  A `getService` call with `FLAG_UPDATE_CURRENT` adds the code to it.
  Whether an adapter's own `cancelLocationUpdates` also cancels the pending intent it is handed is adapter code.
  Each adapter record therefore carries a flag, `releasesOnCancel`. When the flag is set, a cancel removes the adapter's code from `pending`.
  `connect()` is a `for` loop whose invariants tie the scanned prefix to the reference functions `FirstAvailable` and `ScanTrace`.
  The lemmas about those functions state what the scan does.
- **`HtmlDisplayContent`** (module `HtmlDisplay`, file `html_display_content.dfy`).
  It is a value with a URL and a dismiss-button colour.
  It has a mutable `Builder` class, `parseJson` (a method that fills a builder, specified by the function `Parse`), `toJsonValue`, `equals` and `hashCode`.
  The colour codec (`Color.parseColor`, `ColorUtils.convertToString`) is foreign code.
  It is passed in as a `ColorCodec` value holding two functions.
  Parsing has three outcomes: a colour, an `IllegalArgumentException`, or any other exception.
  Only the `IllegalArgumentException` is turned into a `JsonException` (HtmlDisplayContent.java:52); any other exception escapes `parseJson`.
  The only thing assumed of the codec is `Inverse`: parsing a rendered colour gives that colour back.
  `Inverse` is a hypothesis of the round-trip lemma, not an axiom.

Helper modules:
- `Wrappers` has `Option` for null and `Result` for thrown exceptions.
- `Json` has the JSON value with `optMap`, `getString(default)` and `getString()`.
- `JavaInt` has 32-bit `int` wrap-around and `String.hashCode`.

Two details of the code:
- `build()` rejects only a null URL (HtmlDisplayContent.java:183). An empty URL string is accepted.
- `requestSingleLocation` does not return early when no adapter is selected (UALocationProvider.java:121-128). The call that follows is a null dereference. It is caught, and `null` is returned. The model returns `None` and records no call.

## Model

| member | source | states |
|---|---|---|
| `LocationProvider.FirstAvailable` | urbanairship-core/src/main/java/com/urbanairship/location/UALocationProvider.java:145-153 | the selected position is in range and names an available adapter |
| `LocationProvider.FirstAvailableIsFirst` | urbanairship-core/src/main/java/com/urbanairship/location/UALocationProvider.java:145-153 | the selection is None exactly when no adapter is available; otherwise no earlier adapter is available (first match in list order) |
| `LocationProvider.ScanChecksEveryAdapter` | urbanairship-core/src/main/java/com/urbanairship/location/UALocationProvider.java:145-148 | the scan asks every adapter for its availability exactly once, in list order |
| `LocationProvider.ScanPendingReleases` | urbanairship-core/src/main/java/com/urbanairship/location/UALocationProvider.java:160-164 | the scan never adds a request code; a code survives it exactly when it was pending and no available adapter that releases on cancel owns it |
| `LocationProvider.ScanCancelsStale` | urbanairship-core/src/main/java/com/urbanairship/location/UALocationProvider.java:148-167 | the scan only checks and cancels; an adapter is cancelled exactly where the scan meets it available while its code is still pending |
| `LocationProvider.ScanCancelsEveryStaleAdapter` | urbanairship-core/src/main/java/com/urbanairship/location/UALocationProvider.java:148-167 | with distinct request codes, an adapter is cancelled exactly when it is in the list, is available and its code was pending before the scan, whether selected or not |
| `LocationProvider.ScanLeavesUnavailableAlone` | urbanairship-core/src/main/java/com/urbanairship/location/UALocationProvider.java:148-170 | an unavailable adapter receives no call other than its availability check |
| `LocationProvider.UALocationProvider.constructor` | urbanairship-core/src/main/java/com/urbanairship/location/UALocationProvider.java:58-62 | the test constructor keeps the adapters in the order given; the provider starts unconnected with nothing selected |
| `LocationProvider.UALocationProvider.Connect` | urbanairship-core/src/main/java/com/urbanairship/location/UALocationProvider.java:140-174 | afterwards `isConnected` holds and the selection is the first available adapter, even when there is none; the first call appends exactly the scan's calls; a later call changes nothing; the registry afterwards is what the scan's cancels leave of it, and no code is ever added |
| `LocationProvider.UALocationProvider.CancelRequests` | urbanairship-core/src/main/java/com/urbanairship/location/UALocationProvider.java:68-85 | after connecting, cancels the selected adapter only if its code is already pending; never adds a code; a releasing adapter's code is gone afterwards, so updates are no longer requested; no call without a selection |
| `LocationProvider.UALocationProvider.RequestLocationUpdates` | urbanairship-core/src/main/java/com/urbanairship/location/UALocationProvider.java:94-109 | without a selection, registry and trace are only what connecting made them; otherwise adds the selected code to the registry and appends exactly one request carrying the given options |
| `LocationProvider.UALocationProvider.RequestSingleLocation` | urbanairship-core/src/main/java/com/urbanairship/location/UALocationProvider.java:118-134 | returns None (null) exactly when no adapter is selected; otherwise returns the selected adapter's handle for the single request it appends; registry unchanged |
| `LocationProvider.UALocationProvider.OnSystemLocationProvidersChanged` | urbanairship-core/src/main/java/com/urbanairship/location/UALocationProvider.java:183-192 | with a selection, refreshes its pending intent and notifies it once with the given options; otherwise nothing beyond connecting |
| `LocationProvider.UALocationProvider.AreUpdatesRequested` | urbanairship-core/src/main/java/com/urbanairship/location/UALocationProvider.java:200-208 | true exactly when an adapter is selected and its code is pending; changes nothing beyond connecting |
| `JavaInt.Wrap32` | urbanairship-sdk/src/main/java/com/urbanairship/iam/html/HtmlDisplayContent.java:125 | the `int` result of an overflowing expression: in range, congruent modulo 2^32, and unchanged when no overflow happens |
| `HtmlDisplay.Builder.constructor` | urbanairship-sdk/src/main/java/com/urbanairship/iam/html/HtmlDisplayContent.java:143-149 | a fresh builder has no URL and black as its colour |
| `HtmlDisplay.Builder.SetUrl` | urbanairship-sdk/src/main/java/com/urbanairship/iam/html/HtmlDisplayContent.java:158-161 | sets the URL, leaves the colour, returns the same builder |
| `HtmlDisplay.Builder.SetDismissButtonColor` | urbanairship-sdk/src/main/java/com/urbanairship/iam/html/HtmlDisplayContent.java:170-173 | sets the colour, leaves the URL, returns the same builder |
| `HtmlDisplay.Builder.Build` | urbanairship-sdk/src/main/java/com/urbanairship/iam/html/HtmlDisplayContent.java:182-185 | fails exactly when the URL is null; otherwise the content carries the builder's URL and colour |
| `HtmlDisplay.Parse` | urbanairship-sdk/src/main/java/com/urbanairship/iam/html/HtmlDisplayContent.java:43-67 | fails with the colour error exactly when the colour key is present and does not parse; succeeds exactly when the colour is fine and the URL key holds a string; fails with the uncaught error exactly when parsing the colour throws anything else; every other failure is the "invalid html message" error; on success the URL is the key's string and the colour is the parsed one, or black when the key is absent |
| `HtmlDisplay.ParseJson` | urbanairship-sdk/src/main/java/com/urbanairship/iam/html/HtmlDisplayContent.java:43-67 | filling a fresh builder step by step gives exactly the result `Parse` describes |
| `HtmlDisplay.NonStringColorEscapes` | urbanairship-sdk/src/main/java/com/urbanairship/iam/html/HtmlDisplayContent.java:49-54 | a non-string colour value is parsed as ""; if that throws something other than `IllegalArgumentException`, the exception escapes `parseJson` uncaught |
| `HtmlDisplay.ToJsonValue` | urbanairship-sdk/src/main/java/com/urbanairship/iam/html/HtmlDisplayContent.java:70-76 | an object with exactly the keys `dismiss_button_color` and `url`, holding the rendered colour and the URL as strings |
| `HtmlDisplay.RoundTrip` | urbanairship-sdk/src/main/java/com/urbanairship/iam/html/HtmlDisplayContent.java:43-76 | parsing the JSON of any built content succeeds and gives that content back, given that colour parsing inverts rendering |
| `HtmlDisplay.Equals` | urbanairship-sdk/src/main/java/com/urbanairship/iam/html/HtmlDisplayContent.java:106-120 | true exactly when the other object is a display content with the same URL and colour |
| `HtmlDisplay.HashCode` | urbanairship-sdk/src/main/java/com/urbanairship/iam/html/HtmlDisplayContent.java:123-127 | the hash is `31 * url.hashCode() + colour` modulo 2^32 |
| `HtmlDisplay.EqualsAgreesWithHashCode` | urbanairship-sdk/src/main/java/com/urbanairship/iam/html/HtmlDisplayContent.java:106-127 | equal contents have equal hash codes |
| `HtmlDisplay.EqualsIsEquivalence` | urbanairship-sdk/src/main/java/com/urbanairship/iam/html/HtmlDisplayContent.java:106-120 | `equals` is reflexive, symmetric and transitive |

`LocationProvider.SecondAdapterScenario` is a client of the provider's contracts. Only the second of two adapters is available. It shows that the second adapter is selected, that its stale intent is cancelled, and that a later call makes no further availability checks. It also shows that updates requested and then cancelled through `cancelRequests` are no longer requested.

## Left out

- The production constructor is not modelled. It asks Google Play Services whether the fused backend is present, which is a platform query. The explicit-adapter constructor stands in for it.
- `Context`, `Intent` and `PendingIntent` are replaced by the set of pending request codes. The update intent the provider forwards is the same on every call, so it is not represented.
- What an adapter does inside its own calls is not modelled. Its work shows in the model only as the recorded call. The one exception is its effect on the registry when it cancels, which is the `releasesOnCancel` flag.
- Adapter availability is a fixed flag of each adapter record. It does not change between calls.
- Exceptions from platform or adapter calls are not modelled, so every call succeeds in the model. In the source some calls are guarded and some are not:
  - the `getService` and adapter calls in `cancelRequests`, `requestLocationUpdates`, `requestSingleLocation` and in `connect`'s cancel are caught and logged;
  - the `getService` in `areUpdatesRequested` (UALocationProvider.java:207) and both calls in `onSystemLocationProvidersChanged` are not guarded;
  - `isAvailable` in `connect` (UALocationProvider.java:148) is outside its `try`. An exception there escapes every public operation. It would leave `isConnected` false, possibly with an adapter already selected. The model does not capture that state.
- `Logger` calls are left out, since they only log.
- Thread confinement is left out. The class is documented as not thread-safe.
- `LocationRequestOptions` is an opaque type parameter, passed through unchanged.
- The single-location result callback is not modelled. The adapter's handle is a `PendingResult` naming the adapter and its request's position in the trace.
- `Color.parseColor` and `ColorUtils.convertToString` are foreign. They are abstract functions with the single `Inverse` hypothesis. Which strings make `Color.parseColor` throw, and which exception it throws, are left to the codec.
- `JavaInt.StringHash` works on Dafny characters, which are Unicode scalar values. Java hashes UTF-16 code units, so strings outside the Basic Multilingual Plane hash differently.
- JSON numbers are integers only. Floating point is out.
- `toString()` only prints the JSON, and is left out.
- The getters `getUrl()` and `getDismissButtonColor()` are the datatype's fields.
- `equals` is not modelled on object identity. The `this == o` shortcut (HtmlDisplayContent.java:107-109) is reachable through `x.equals(x)`, but it is redundant: it returns what the field comparison returns, as the reflexivity in `EqualsIsEquivalence` shows.
- The null-URL branches of `equals` and `hashCode` are unreachable for built values, whose URL is never null.
