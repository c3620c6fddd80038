# UTrack binding model

A Dafny model of the track of an OpenUtau project (`OpenUtau.Core/Ustx/UTrack.cs`).
A track keeps two views of its resources:

- the persisted identifiers `singer`, `phonemizer` and `renderer` (nullable strings, modelled as `Option<string>`);
- the live bindings `Singer`, `Phonemizer` and `Renderer`, with the derived voice colour descriptor `VoiceColorExp` and the position `TrackNo`.

The operations that move between the two are modelled as methods of the class `Ustx.UTrack`, which updates its fields in place:

- the `Singer` setter, `SetSinger`;
- `OnSingerRefreshed`;
- `Validate`;
- `BeforeSave`;
- `AfterLoad`, split into its three resolution steps `ResolvePhonemizer`, `ResolveSinger` and `ResolveRenderer`.

The expression-only members are functions: `TryGetExpression`, `SingerName`, `DisplayTrackNo`, and the colour computation inside `Validate` (`WithVoiceColors`, built on `Ordering.SortedDistinct`).

The process-wide collaborators are parameters:

- the singer catalogue (`SingerManager.Inst.Singers` and `GetSinger`) is a `map<string, USinger>`, with `GetSinger(id)` read as a lookup by key;
- the phonemizer factories (`DocManager.Inst.PhonemizerFactories`) are a sequence of `PhonemizerFactory` values, each naming the type it creates and whether its `Create()` throws;
- `Renderers.CreateRenderer` and `Renderers.GetDefaultRenderer` are a `RendererRegistry`: a map from name to renderer and a function from singer type to default name;
- the project contributes its expression table (`map<string, ExpressionDescriptor>`) and its track list (`seq<UTrack>`).

Singers and phonemizers are classes, because the source compares and shares them by reference (`singer_ != value`). `PhonemizerInstance` keeps a ghost log `notified` of every `SetSinger` call it receives, so that the contracts can say when the phonemizer is told about a singer. Renderers and expression descriptors are values.

Files: `wrappers.dfy` (Option), `ordering.dfy` (ordinal string order, sorting without duplicates), `singers.dfy` (the singer as the track sees it), `api.dfy` (phonemizers and their factories), `render.dfy` (renderer registry), `ustx.dfy` (the track), `scenarios.dfy` (clients that chain the operations).

The model follows the code as written, including where it departs from the intent one might read into it:

- Initial binding in `AfterLoad` goes through the setter (line 91 and line 93), so it clears `VoiceColorExp`. The phonemizer then hears of the singer twice: once from the setter and once from line 96 (see the `notified` clause of `AfterLoad`).
- The setter never clears `Renderer`, and `AfterLoad` assigns it only for a found singer. So the rule "a renderer exists only for a found singer" holds after `AfterLoad` only on a track that had no renderer before, such as a freshly deserialized one. A renderer the track already had survives `AfterLoad` when the singer ends null or not found, and a later reassignment can break the rule too (`Scenarios.RendererOutlivesSinger`).
- When the factory's `Create()` throws, the persisted `phonemizer` is not cleared, and an existing phonemizer is kept.
- A persisted phonemizer name that is the empty string is left as it is when the track already has a phonemizer, because `IsNullOrEmpty` skips the lookup. When the track has no phonemizer, the lookup runs anyway, finds nothing, and sets the name to null.
- "Loading is idempotent" is stated as `AfterLoad`'s last two clauses. Its result satisfies `Resolved`, and on a `Resolved` track with the same collaborators it changes no binding and no persisted field. The only thing that grows is the phonemizer's notification log.

## Model

| member | source | states |
|---|---|---|
| `Ordering.LessIrreflexive` | OpenUtau.Core/Ustx/UTrack.cs:65 | the string order used to sort the colours is irreflexive |
| `Ordering.LessAsymmetric` | OpenUtau.Core/Ustx/UTrack.cs:65 | the string order is asymmetric |
| `Ordering.LessTransitive` | OpenUtau.Core/Ustx/UTrack.cs:65 | the string order is transitive |
| `Ordering.LessTotal` | OpenUtau.Core/Ustx/UTrack.cs:65 | any two different strings are ordered one way or the other |
| `Ordering.HeadBelowTail` | OpenUtau.Core/Ustx/UTrack.cs:65 | in a strictly ascending list the first element is below, and different from, every later one |
| `Ordering.BelowHeadBelowAll` | OpenUtau.Core/Ustx/UTrack.cs:65 | a string below the first element of a strictly ascending list is below all of it |
| `Ordering.Prepend` | OpenUtau.Core/Ustx/UTrack.cs:65 | putting a string in front of a strictly ascending list that lies entirely above it keeps the list strictly ascending |
| `Ordering.Insert` | OpenUtau.Core/Ustx/UTrack.cs:64-65 | inserting into a strictly ascending list keeps it strictly ascending, adds exactly the new element, and drops a duplicate |
| `Ordering.InsertLength` | OpenUtau.Core/Ustx/UTrack.cs:64-65 | an insertion adds at most one element |
| `Ordering.SortedDistinct` | OpenUtau.Core/Ustx/UTrack.cs:64-65 | `ToHashSet().OrderBy(c => c)` yields a strictly ascending list (no duplicates) whose elements are exactly the input's, and which is no longer than the input |
| `Ordering.EmptyTogether` | OpenUtau.Core/Ustx/UTrack.cs:64 | two lists with the same elements are both empty or both non-empty |
| `Ordering.HeadIsLeast` | OpenUtau.Core/Ustx/UTrack.cs:65 | every element of a strictly ascending list is its head or lies above it |
| `Ordering.AscendingUnique` | OpenUtau.Core/Ustx/UTrack.cs:64-65 | two strictly ascending lists with the same elements are equal, so the sorted set is uniquely determined |
| `Ordering.SortedDistinctOfSameElements` | OpenUtau.Core/Ustx/UTrack.cs:64-65 | the colour options depend only on the set of colours, not on their order or repetitions |
| `Ordering.SortedDistinctOfAscending` | OpenUtau.Core/Ustx/UTrack.cs:64-65 | a list that is already strictly ascending comes back unchanged |
| `Singers.USinger.constructor` | OpenUtau.Core/Ustx/UTrack.cs:91 | a catalogue singer is found and not yet loaded |
| `Singers.USinger.Missing` | OpenUtau.Core/Ustx/UTrack.cs:93 | `CreateMissing(name)` gives a not-found singer carrying the name |
| `Singers.USinger.EnsureLoaded` | OpenUtau.Core/Ustx/UTrack.cs:59 | after `EnsureLoaded` the singer is loaded; nothing else about it changes |
| `Api.PhonemizerInstance.constructor` | OpenUtau.Core/Ustx/UTrack.cs:27 | a new phonemizer has its type name, no singer, and has heard nothing yet |
| `Api.PhonemizerInstance.SetSinger` | OpenUtau.Core/Ustx/UTrack.cs:22 | the phonemizer's singer becomes the given one (null included), and the call is logged |
| `Api.FirstFactory` | OpenUtau.Core/Ustx/UTrack.cs:80 | `FirstOrDefault`: none exactly when no factory's type name equals the persisted name; otherwise the first factory that matches |
| `Api.Create` | OpenUtau.Core/Ustx/UTrack.cs:81-85 | `factory.Create()` fails exactly when the factory throws; otherwise it gives a fresh phonemizer of the factory's type |
| `Ustx.Colors` | OpenUtau.Core/Ustx/UTrack.cs:64 | definitional: `Select(subbank => subbank.Color)`, one colour per sub-bank in order; what the colours become is stated by `WithVoiceColors` |
| `Ustx.WithVoiceColors` | OpenUtau.Core/Ustx/UTrack.cs:63-66 | the cloned descriptor keeps name, abbreviation, minimum and default; its options are strictly ascending and are exactly the sub-bank colours; `max == |options| - 1` |
| `Ustx.IndexOf` | OpenUtau.Core/Ustx/UTrack.cs:104 | `IndexOf` is -1 exactly when the track is absent; otherwise it is the first position holding the track |
| `Ustx.UTrack.constructor` | OpenUtau.Core/Ustx/UTrack.cs:27-38 | a new track has no persisted identifiers, no singer, renderer or voice colour descriptor, and a fresh default phonemizer |
| `Ustx.UTrack.SetSinger` | OpenUtau.Core/Ustx/UTrack.cs:17-26 | a different singer (null included) is stored, passed to the phonemizer's `SetSinger` and clears `VoiceColorExp`; the same singer changes nothing and does not notify the phonemizer; the renderer and the persisted fields are outside the frame |
| `Ustx.UTrack.TryGetExpression` | OpenUtau.Core/Ustx/UTrack.cs:40-48 | fails exactly when the key is absent from the project; any key other than CLR gives the project's descriptor; CLR gives the track's voice colour descriptor when it has one and the project's otherwise; reads the track without changing it |
| `Ustx.UTrack.OnSingerRefreshed` | OpenUtau.Core/Ustx/UTrack.cs:50-55 | `VoiceColorExp` is cleared; a non-null, loaded singer whose id the catalogue lacks is replaced by a fresh not-found placeholder with the old name, and the phonemizer is told; otherwise the singer and the phonemizer are unchanged |
| `Ustx.UTrack.Validate` | OpenUtau.Core/Ustx/UTrack.cs:57-69 | a found singer ends up loaded; when CLR is defined, the track has no descriptor, and the singer is found and loaded, the descriptor becomes `WithVoiceColors` of the project's CLR descriptor and the singer's sub-banks; an existing descriptor is never overwritten |
| `Ustx.UTrack.BeforeSave` | OpenUtau.Core/Ustx/UTrack.cs:71-75 | the persisted fields become the singer's id (or null), the phonemizer's type name and the renderer's name (or null); live fields are outside the frame; a second call changes nothing |
| `Ustx.UTrack.ResolvePhonemizer` | OpenUtau.Core/Ustx/UTrack.cs:78-89 | the phonemizer ends non-null; the lookup runs only without a phonemizer or with a non-empty name. A matching factory that creates gives a fresh phonemizer of its type, and no match gives a fresh default; both clear the name. A throwing factory keeps the phonemizer and the name, with the default filling a missing phonemizer |
| `Ustx.UTrack.ResolveSinger` | OpenUtau.Core/Ustx/UTrack.cs:90-95 | only a track with no singer and a non-empty id binds one: the catalogue's singer of that id, otherwise a fresh not-found placeholder named after the id; binding clears `VoiceColorExp` and notifies the phonemizer once |
| `Ustx.UTrack.ResolveRenderer` | OpenUtau.Core/Ustx/UTrack.cs:97-103 | only for a found singer: the renderer created from the persisted name, or, when that fails, the name becomes the default for the singer's type and the renderer is created from it; otherwise renderer and name are untouched |
| `Ustx.UTrack.AfterLoad` | OpenUtau.Core/Ustx/UTrack.cs:77-105 | the three resolutions in order, one more unconditional `SetSinger` to the phonemizer, and `TrackNo == IndexOf(tracks, this)`; a renderer appears only for a found singer on a track that had none; a replaced phonemizer is left untouched; the result is `Resolved`, and loading a `Resolved` track again changes no binding or persisted field |
| `Ustx.UTrack.SingerName` | OpenUtau.Core/Ustx/UTrack.cs:31 | definitional: the singer's display name, or "[No Singer]" without a singer |
| `Ordering.Less` | OpenUtau.Core/Ustx/UTrack.cs:65 | definitional: ordinal order (the first differing character code decides, and a proper prefix comes first), standing in for the culture-sensitive default comparer of `OrderBy(c => c)`; its order properties are the `Less*` lemmas |
| `Api.Matches` | OpenUtau.Core/Ustx/UTrack.cs:80 | the predicate `factory.type.FullName == phonemizer`: a null name matches no factory |
| `Render.CreateRenderer` | OpenUtau.Core/Ustx/UTrack.cs:98-101 | definitional: `Renderers.CreateRenderer(name)` as a lookup, none for a null or unknown name |
| `Render.Tag` | OpenUtau.Core/Ustx/UTrack.cs:74 | definitional: `Renderer?.ToString()`, null without a renderer, otherwise the renderer's name |
| `Ustx.IsNullOrEmpty` | OpenUtau.Core/Ustx/UTrack.cs:78-90 | `string.IsNullOrEmpty` on a persisted identifier: null or the empty string |
| `Ustx.Dropped` | OpenUtau.Core/Ustx/UTrack.cs:51 | the guard of `OnSingerRefreshed`: a non-null, loaded singer whose id the catalogue does not hold |
| `Ustx.UTrack.DisplayTrackNo` | OpenUtau.Core/Ustx/UTrack.cs:33 | the one-based track number, one more than `TrackNo`; `DisplayTrackNoIsPosition` states what it means |
| `Ustx.DisplayTrackNoIsPosition` | OpenUtau.Core/Ustx/UTrack.cs:33 | once `TrackNo` is recomputed, `DisplayTrackNo` is the track's one-based position in the project (its first occurrence), and 0 when the project does not hold it |
| `Scenarios.VoiceColorsExample` | OpenUtau.Core/Ustx/UTrack.cs:63-66 | sub-bank colours red, blue, red give options blue, red and maximum 1 |
| `Scenarios.LoadUnknownSinger` | OpenUtau.Core/Ustx/UTrack.cs:90-104 | an id the catalogue lacks loads as a not-found placeholder named after it, with no renderer |
| `Scenarios.LoadUnknownPhonemizer` | OpenUtau.Core/Ustx/UTrack.cs:78-89 | a non-empty type name that no factory creates loads the default phonemizer and clears the name |
| `Scenarios.StaleVoiceColors` | OpenUtau.Core/Ustx/UTrack.cs:57-69 | options built once stay as they are after the singer's sub-banks change, and `TryGetExpression(CLR)` returns them |
| `Scenarios.RendererOutlivesSinger` | OpenUtau.Core/Ustx/UTrack.cs:17-29 | the renderer loaded for a found singer survives setting the singer to null |
| `Scenarios.SaveThenLoad` | OpenUtau.Core/Ustx/UTrack.cs:71-105 | saving and then loading into a new track gives back the same singer when the catalogue holds it under its id, the same phonemizer type when the first matching factory creates it, and the same renderer when the registry creates it from its name |

## Left out

- `OpenUtau.Core/Util/PathManager.cs` is not part of this model: it handles filesystem and environment paths, directory creation, cache deletion and a floating-point cache size.
- Logging: the `Log.Error` call in `AfterLoad` is left out. The catch around the factory's `Create()` is modelled as a factory flag, `createThrows`.
- `Mute`, `Solo`, `Volume`, `Pan` and `PhonemizerTag` are left out. They are plain properties with no logic; two of them are floats.
- YAML attributes and serialization are left out. The persisted fields are plain fields.
- Threading is left out. The model assumes a single writer.
- `Validate`'s `ValidateOptions` parameter is left out, because the method never reads it.
- `Ordering.Less`: orders strings ordinally, by character code, where `OrderBy(c => c)` uses the culture-sensitive default comparer. Colour names that mix upper and lower case, or contain non-ASCII characters, can therefore be ordered differently from the source in every culture. For example, `"Soft"` comes before `"power"` here, while the default comparer puts `"power"` first. Ordinal order is a fixed total order the proofs can work with; culture collation is not modelled.
- `Ordering.SortedDistinct`: sorts by `Ordering.Less`, so it inherits that difference in order. The set of options and the absence of duplicates are as in the source.
- `Singers.USinger.Missing`: promises only the name, not-found, not-loaded and no sub-banks. USinger's source is not part of this model, so the placeholder's id, display name and type are not promised.
- `Singers.USinger.EnsureLoaded`: promises only `loaded`, because loading data from disk is not modelled.
- `Api.PhonemizerInstance.SetSinger`: records the singer only. What a concrete phonemizer does with it is not modelled.
- Renderers and expression descriptors are values. The model does not capture object identity, such as two tracks sharing one descriptor object or `CreateRenderer` returning a new object each time. `Clone` is a copy with new options and maximum.
- The renderer registry is deterministic. Creating a renderer from the same name always yields the same value.
- Exceptions are left out. Creating the default phonemizer is assumed to succeed. The setter's null dereference when there is no phonemizer is excluded by its precondition (`value != Singer ==> Phonemizer != null`), which `OnSingerRefreshed` inherits.
- Floating-point descriptor fields (`min`, `max`, `defaultValue`) are integers. They are only copied, or set to an option count minus one.
