/**
  The track of a project (OpenUtau.Core.Ustx.UTrack): three persisted
  identifiers (`singer`, `phonemizer`, `renderer`) and the live bindings
  resolved from them (`Singer`, `Phonemizer`, `Renderer`, with the derived
  `VoiceColorExp` and `TrackNo`).

  The process-wide collaborators are parameters: the singer catalogue
  (`SingerManager.Inst.Singers`, also behind `GetSinger`) is a map from id to
  singer, the phonemizer factories (`DocManager.Inst.PhonemizerFactories`) a
  sequence, the renderers a `RendererRegistry`, and the project contributes
  its expression table and its track list.
*/
module Ustx {
  import opened Wrappers
  import opened Ordering
  import opened Singers
  import opened Api
  import opened Render

  /** `Format.Ustx.CLR`, the key of the voice colour expression. */
  const CLR: string := "clr"

  /** What `SingerName` shows for a track without a singer. */
  const NoSingerName: string := "[No Singer]"

  /** `typeof(DefaultPhonemizer).FullName`. */
  const DefaultPhonemizerType: string := "OpenUtau.Core.DefaultPhonemizer"

  /**
    An expression descriptor (UExpressionDescriptor). `min`, `max` and
    `defaultValue` are floats in the source; they are only ever copied here,
    or set to an option count, so integers carry them.
  */
  datatype ExpressionDescriptor = ExpressionDescriptor(
    name: string, abbr: string, min: int, max: int, defaultValue: int, options: seq<string>)

  /** The three identifiers that a project file stores for a track. */
  datatype PersistedFields = PersistedFields(singer: Option<string>, phonemizer: Option<string>, renderer: Option<string>)

  /** `string.IsNullOrEmpty`. */
  predicate IsNullOrEmpty(s: Option<string>) {
    s.None? || s.value == ""
  }

  /** `subbanks.Select(subbank => subbank.Color)`. */
  function Colors(subbanks: seq<Subbank>): seq<string> {
    seq(|subbanks|, i requires 0 <= i < |subbanks| => subbanks[i].color)
  }

  /**
    The voice colour descriptor `Validate` builds: a copy of the project's
    descriptor whose options are the distinct sub-bank colours in ascending
    order and whose maximum is the last option's index.
  */
  function WithVoiceColors(d: ExpressionDescriptor, subbanks: seq<Subbank>): (r: ExpressionDescriptor)
    ensures r.name == d.name && r.abbr == d.abbr && r.min == d.min && r.defaultValue == d.defaultValue
    ensures StrictlyAscending(r.options)
    ensures forall c :: c in r.options <==> c in Colors(subbanks)
    ensures r.max == |r.options| - 1
    ensures |r.options| <= |subbanks|
  {
    var options := SortedDistinct(Colors(subbanks));
    d.(options := options, max := |options| - 1)
  }

  /** `list.IndexOf(x)`: the first position of `x`, or -1. */
  function IndexOf<T(==)>(s: seq<T>, x: T): (r: int)
    ensures r == -1 <==> x !in s
    ensures r != -1 ==> 0 <= r < |s| && s[r] == x && forall j :: 0 <= j < r ==> s[j] != x
    decreases |s|
  {
    if s == [] then -1
    else if s[0] == x then 0
    else
      var k := IndexOf(s[1..], x);
      if k == -1 then -1
      else
        assert forall j :: 1 <= j <= k ==> s[j] == s[1..][j - 1];
        k + 1
  }

  /** The condition under which `OnSingerRefreshed` swaps in a placeholder. */
  ghost predicate Dropped(s: USinger?, singers: map<string, USinger>)
    reads s
  {
    s != null && s.loaded && s.id !in singers
  }

  class UTrack {
    // Persisted identifiers.
    var singer: Option<string>
    var phonemizer: Option<string>
    var renderer: Option<string>

    // Live bindings.
    var Singer: USinger?
    var Phonemizer: PhonemizerInstance?
    var Renderer: Option<RendererInstance>
    var TrackNo: int
    var VoiceColorExp: Option<ExpressionDescriptor>

    ghost function Persisted(): PersistedFields
      reads this
    {
      PersistedFields(singer, phonemizer, renderer)
    }

    /** The identifiers that `BeforeSave` derives from the live bindings. */
    ghost function Identity(): PersistedFields
      reads this
      requires Phonemizer != null
    {
      PersistedFields(if Singer == null then None else Some(Singer.id), Some(Phonemizer.typeName), Tag(Renderer))
    }

    /** The persisted identifiers mirror the live bindings. */
    ghost predicate Saved()
      reads this
    {
      Phonemizer != null && Persisted() == Identity()
    }

    /**
      The state `AfterLoad` leaves behind for the given collaborators; on a
      track in this state `AfterLoad` changes no binding.
    */
    ghost predicate Resolved(factories: seq<PhonemizerFactory>, singers: map<string, USinger>,
                             renderers: RendererRegistry, tracks: seq<UTrack>)
      reads this, Singer
    {
      && Phonemizer != null
      && (IsNullOrEmpty(phonemizer) ||
          (var f := FirstFactory(factories, phonemizer); f.Some? && f.value.createThrows))
      && (Singer == null ==> IsNullOrEmpty(singer))
      && (Singer != null && Singer.found ==>
            Renderer == CreateRenderer(renderers, renderer) &&
            (Renderer.None? ==> renderer == Some(renderers.defaultFor(Singer.singerType))))
      && TrackNo == IndexOf(tracks, this)
    }

    /** A new track: nothing persisted, no singer, the default phonemizer. */
    constructor ()
      ensures Persisted() == PersistedFields(None, None, None)
      ensures Singer == null && Renderer.None? && VoiceColorExp.None? && TrackNo == 0
      ensures Phonemizer != null && fresh(Phonemizer)
      ensures Phonemizer.typeName == DefaultPhonemizerType && Phonemizer.singer == null && Phonemizer.notified == []
    {
      singer, phonemizer, renderer := None, None, None;
      Singer := null;
      Phonemizer := new PhonemizerInstance(DefaultPhonemizerType);
      Renderer := None;
      TrackNo := 0;
      VoiceColorExp := None;
    }

    /**
      The `Singer` setter. A different singer (null included) is stored,
      announced to the phonemizer and clears the voice colour expression; the
      singer already held changes nothing.
    */
    method SetSinger(value: USinger?)
      requires value != Singer ==> Phonemizer != null
      modifies this`Singer, this`VoiceColorExp, Phonemizer
      ensures Singer == value
      ensures value != old(Singer) ==>
        && VoiceColorExp.None?
        && Phonemizer.singer == value
        && Phonemizer.notified == old(Phonemizer.notified) + [value]
      ensures value == old(Singer) ==>
        && VoiceColorExp == old(VoiceColorExp)
        && (Phonemizer != null ==>
              Phonemizer.singer == old(Phonemizer.singer) && Phonemizer.notified == old(Phonemizer.notified))
    {
      if Singer != value {
        Singer := value;
        Phonemizer.SetSinger(value);
        VoiceColorExp := None;
      }
    }

    /**
      `TryGetExpression`: the project's descriptor for `key`, with the
      track's own voice colour descriptor in place of the project's for CLR.
      Fails exactly when the project has no such key.
    */
    function TryGetExpression(expressions: map<string, ExpressionDescriptor>, key: string): (r: Option<ExpressionDescriptor>)
      reads this
      ensures r.None? <==> key !in expressions
      ensures r.Some? && key != CLR ==> r.value == expressions[key]
      ensures r.Some? && key == CLR ==> r.value == VoiceColorExp.GetOr(expressions[CLR])
    {
      if key !in expressions then None
      else if key == CLR && VoiceColorExp.Some? then VoiceColorExp
      else Some(expressions[key])
    }

    /**
      `OnSingerRefreshed`: after a catalogue rescan, a loaded singer whose id
      the catalogue no longer has is replaced by a not-found placeholder of
      the same name; the voice colour expression is always cleared.
    */
    method OnSingerRefreshed(singers: map<string, USinger>)
      requires Dropped(Singer, singers) ==> Phonemizer != null
      modifies this`Singer, this`VoiceColorExp, Phonemizer
      ensures VoiceColorExp.None?
      ensures old(Dropped(Singer, singers)) ==>
        && fresh(Singer) && Singer.name == old(Singer.name) && !Singer.found
        && Phonemizer.singer == Singer
        && Phonemizer.notified == old(Phonemizer.notified) + [Singer]
      ensures !old(Dropped(Singer, singers)) ==>
        && Singer == old(Singer)
        && (Phonemizer != null ==>
              Phonemizer.singer == old(Phonemizer.singer) && Phonemizer.notified == old(Phonemizer.notified))
    {
      if Singer != null && Singer.loaded && Singer.id !in singers {
        var missing := new USinger.Missing(Singer.name);
        SetSinger(missing);
      }
      VoiceColorExp := None;
    }

    /**
      `Validate`: loads a found singer, then, when the project defines CLR
      and the track has no voice colour descriptor yet, builds one from the
      singer's sub-bank colours. A descriptor already present is kept as it
      is, even when the colours have changed since.
    */
    method Validate(expressions: map<string, ExpressionDescriptor>)
      modifies this`VoiceColorExp, Singer
      ensures Singer != null && Singer.found ==> Singer.loaded
      ensures Singer != null ==> Singer.subbanks == old(Singer.subbanks)
      ensures Singer != null && !Singer.found ==> Singer.loaded == old(Singer.loaded)
      ensures if CLR in expressions && old(VoiceColorExp).None? && Singer != null && Singer.found && Singer.loaded
              then VoiceColorExp == Some(WithVoiceColors(expressions[CLR], Singer.subbanks))
              else VoiceColorExp == old(VoiceColorExp)
      ensures old(VoiceColorExp).Some? ==> VoiceColorExp == old(VoiceColorExp)
    {
      if Singer != null && Singer.found {
        Singer.EnsureLoaded();
      }
      if CLR in expressions {
        var descriptor := expressions[CLR];
        if VoiceColorExp.None? && Singer != null && Singer.found && Singer.loaded {
          VoiceColorExp := Some(WithVoiceColors(descriptor, Singer.subbanks));
        }
      }
    }

    /**
      `BeforeSave`: writes the singer's id, the phonemizer's type name and the
      renderer's name into the persisted fields; a second call changes nothing.
    */
    method BeforeSave()
      requires Phonemizer != null
      modifies this`singer, this`phonemizer, this`renderer
      ensures Saved()
      ensures Persisted() == Identity()
      ensures old(Saved()) ==> Persisted() == old(Persisted())
    {
      singer := if Singer == null then None else Some(Singer.id);
      phonemizer := Some(Phonemizer.typeName);
      renderer := Tag(Renderer);
    }

    /**
      Lines 78-89 of `AfterLoad`: when there is no phonemizer or a type name
      is persisted, the first factory of that type creates one and the name
      is cleared; no factory leaves no phonemizer, a factory that throws
      changes nothing. The default phonemizer fills any gap.
    */
    method ResolvePhonemizer(factories: seq<PhonemizerFactory>)
      modifies this`Phonemizer, this`phonemizer
      ensures Phonemizer != null
      ensures Phonemizer != old(Phonemizer) ==>
        fresh(Phonemizer) && Phonemizer.singer == null && Phonemizer.notified == []
      ensures old(Phonemizer) != null && IsNullOrEmpty(old(phonemizer)) ==>
        Phonemizer == old(Phonemizer) && phonemizer == old(phonemizer)
      ensures old(Phonemizer) == null || !IsNullOrEmpty(old(phonemizer)) ==>
        var f := FirstFactory(factories, old(phonemizer));
        if f.Some? && f.value.createThrows then
          && phonemizer == old(phonemizer)
          && (old(Phonemizer) != null ==> Phonemizer == old(Phonemizer))
          && (old(Phonemizer) == null ==> Phonemizer.typeName == DefaultPhonemizerType)
        else
          && phonemizer.None?
          && Phonemizer != old(Phonemizer)
          && Phonemizer.typeName == (if f.Some? then f.value.typeName else DefaultPhonemizerType)
    {
      if Phonemizer == null || !IsNullOrEmpty(phonemizer) {
        var factory := FirstFactory(factories, phonemizer);
        if factory.None? {
          Phonemizer := null;
          phonemizer := None;
        } else {
          var created := Create(factory.value);
          if created.Some? {
            Phonemizer := created.value;
            phonemizer := None;
          }
          // Otherwise the exception is logged and nothing is assigned.
        }
      }
      if Phonemizer == null {
        Phonemizer := new PhonemizerInstance(DefaultPhonemizerType);
      }
    }

    /**
      Lines 90-95 of `AfterLoad`: a track without a singer but with a
      persisted id binds, through the setter, the catalogue's singer of that
      id or else a not-found placeholder carrying the id as its name.
    */
    method ResolveSinger(singers: map<string, USinger>)
      requires Phonemizer != null
      modifies this`Singer, this`VoiceColorExp, Phonemizer
      ensures old(Singer) != null || IsNullOrEmpty(singer) ==>
        Singer == old(Singer) && VoiceColorExp == old(VoiceColorExp)
      ensures old(Singer) == null && !IsNullOrEmpty(singer) && singer.value in singers ==>
        Singer == singers[singer.value] && VoiceColorExp.None?
      ensures old(Singer) == null && !IsNullOrEmpty(singer) && singer.value !in singers ==>
        fresh(Singer) && Singer.name == singer.value && !Singer.found && VoiceColorExp.None?
      ensures Singer != old(Singer) ==>
        Phonemizer.singer == Singer && Phonemizer.notified == old(Phonemizer.notified) + [Singer]
      ensures Singer == old(Singer) ==>
        Phonemizer.singer == old(Phonemizer.singer) && Phonemizer.notified == old(Phonemizer.notified)
    {
      if Singer == null && !IsNullOrEmpty(singer) {
        SetSinger(if singer.value in singers then singers[singer.value] else null);
        if Singer == null {
          var missing := new USinger.Missing(singer.value);
          SetSinger(missing);
        }
      }
    }

    /**
      Lines 97-103 of `AfterLoad`: only for a found singer, a renderer is
      created from the persisted name; when that fails the name becomes the
      default for the singer's type and the renderer is created from it.
    */
    method ResolveRenderer(renderers: RendererRegistry)
      modifies this`Renderer, this`renderer
      ensures Singer != null && Singer.found && CreateRenderer(renderers, old(renderer)).Some? ==>
        Renderer == CreateRenderer(renderers, old(renderer)) && renderer == old(renderer)
      ensures Singer != null && Singer.found && CreateRenderer(renderers, old(renderer)).None? ==>
        renderer == Some(renderers.defaultFor(Singer.singerType)) && Renderer == CreateRenderer(renderers, renderer)
      ensures Singer == null || !Singer.found ==> Renderer == old(Renderer) && renderer == old(renderer)
    {
      if Singer != null && Singer.found {
        Renderer := CreateRenderer(renderers, renderer);
        if Renderer.None? {
          renderer := Some(renderers.defaultFor(Singer.singerType));
          Renderer := CreateRenderer(renderers, renderer);
        }
      }
    }

    /**
      `AfterLoad`: resolves the persisted identifiers into live bindings with
      fallbacks (default phonemizer, placeholder singer, default renderer for
      the singer's type), tells the phonemizer the singer once more, and
      recomputes `TrackNo`. Afterwards the track is `Resolved`, and loading a
      resolved track again with the same collaborators changes no binding.
    */
    method AfterLoad(factories: seq<PhonemizerFactory>, singers: map<string, USinger>,
                     renderers: RendererRegistry, tracks: seq<UTrack>)
      modifies this`Phonemizer, this`phonemizer, this`Singer, this`VoiceColorExp,
               this`Renderer, this`renderer, this`TrackNo, Phonemizer
      ensures Phonemizer != null
      ensures old(Phonemizer) == null || !IsNullOrEmpty(old(phonemizer)) ==>
        var f := FirstFactory(factories, old(phonemizer));
        if f.Some? && f.value.createThrows then
          && phonemizer == old(phonemizer)
          && (old(Phonemizer) != null ==> Phonemizer == old(Phonemizer))
          && (old(Phonemizer) == null ==> fresh(Phonemizer) && Phonemizer.typeName == DefaultPhonemizerType)
        else
          && phonemizer.None? && fresh(Phonemizer)
          && Phonemizer.typeName == (if f.Some? then f.value.typeName else DefaultPhonemizerType)
      ensures old(Phonemizer) != null && IsNullOrEmpty(old(phonemizer)) ==>
        Phonemizer == old(Phonemizer) && phonemizer == old(phonemizer)
      ensures old(Singer) == null && !IsNullOrEmpty(old(singer)) && old(singer).value in singers ==>
        Singer == singers[old(singer).value] && VoiceColorExp.None?
      ensures old(Singer) == null && !IsNullOrEmpty(old(singer)) && old(singer).value !in singers ==>
        fresh(Singer) && Singer.name == old(singer).value && !Singer.found && VoiceColorExp.None?
      ensures old(Singer) != null || IsNullOrEmpty(old(singer)) ==>
        Singer == old(Singer) && VoiceColorExp == old(VoiceColorExp)
      ensures Phonemizer.singer == Singer
      ensures Phonemizer.notified ==
        (if Phonemizer == old(Phonemizer) then old(Phonemizer.notified) else [])
        + (if Singer != old(Singer) then [Singer] else []) + [Singer]
      ensures Singer != null && Singer.found && CreateRenderer(renderers, old(renderer)).Some? ==>
        Renderer == CreateRenderer(renderers, old(renderer)) && renderer == old(renderer)
      ensures Singer != null && Singer.found && CreateRenderer(renderers, old(renderer)).None? ==>
        renderer == Some(renderers.defaultFor(Singer.singerType)) && Renderer == CreateRenderer(renderers, renderer)
      ensures Singer == null || !Singer.found ==> Renderer == old(Renderer) && renderer == old(renderer)
      ensures old(Renderer).None? ==> (Renderer.Some? ==> Singer != null && Singer.found)
      ensures old(Phonemizer) != null && Phonemizer != old(Phonemizer) ==>
        old(Phonemizer).singer == old(Phonemizer.singer) && old(Phonemizer).notified == old(Phonemizer.notified)
      ensures singer == old(singer)
      ensures TrackNo == IndexOf(tracks, this)
      ensures Resolved(factories, singers, renderers, tracks)
      ensures old(Resolved(factories, singers, renderers, tracks)) ==>
        && Singer == old(Singer) && Phonemizer == old(Phonemizer) && Renderer == old(Renderer)
        && VoiceColorExp == old(VoiceColorExp) && Persisted() == old(Persisted()) && TrackNo == old(TrackNo)
    {
      ResolvePhonemizer(factories);
      ResolveSinger(singers);
      Phonemizer.SetSinger(Singer);
      ResolveRenderer(renderers);
      TrackNo := IndexOf(tracks, this);
    }

    /** `SingerName`: the singer's display name, or a fixed label when there is none. */
    function SingerName(): string
      reads this
    {
      if Singer != null then Singer.displayName else NoSingerName
    }

    /** `DisplayTrackNo`: the one-based track number. */
    function DisplayTrackNo(): int
      reads this
    {
      TrackNo + 1
    }
  }

  /**
    Once `TrackNo` has been recomputed, the one-based number shown for a
    track is its position in the project (and 0 for a track the project does
    not hold).
  */
  lemma DisplayTrackNoIsPosition(t: UTrack, tracks: seq<UTrack>)
    requires t.TrackNo == IndexOf(tracks, t)
    ensures t in tracks ==> 1 <= t.DisplayTrackNo() <= |tracks| && tracks[t.DisplayTrackNo() - 1] == t
    ensures t in tracks ==> forall j :: 0 <= j < t.DisplayTrackNo() - 1 ==> tracks[j] != t
    ensures t !in tracks ==> t.DisplayTrackNo() == 0
  {
  }
}
