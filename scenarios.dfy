/**
  Clients of `UTrack` that run its operations in the orders a project goes
  through them (load, validate, edit, save) and state what results, using
  only the contracts of the operations.
*/
module Scenarios {
  import opened Wrappers
  import opened Ordering
  import opened Singers
  import opened Api
  import opened Render
  import opened Ustx

  /** Sub-bank colours red, blue, red give the options blue, red with maximum 1. */
  lemma VoiceColorsExample(d: ExpressionDescriptor)
    ensures WithVoiceColors(d, [Subbank("red"), Subbank("blue"), Subbank("red")]).options == ["blue", "red"]
    ensures WithVoiceColors(d, [Subbank("red"), Subbank("blue"), Subbank("red")]).max == 1
  {
    var r := WithVoiceColors(d, [Subbank("red"), Subbank("blue"), Subbank("red")]);
    var c := Colors([Subbank("red"), Subbank("blue"), Subbank("red")]);
    assert c == ["red", "blue", "red"];
    assert Less("blue", "red");
    assert StrictlyAscending(["blue", "red"]);
    AscendingUnique(r.options, ["blue", "red"]);
  }

  /**
    A persisted singer id the catalogue does not know loads as a not-found
    placeholder named after the id, and no renderer is created for it.
  */
  method LoadUnknownSinger(id: string, factories: seq<PhonemizerFactory>, singers: map<string, USinger>,
                           renderers: RendererRegistry) returns (t: UTrack)
    requires id != "" && id !in singers
    ensures t.Singer != null && !t.Singer.found && t.Singer.name == id
    ensures t.Renderer.None? && t.Phonemizer != null && t.TrackNo == 0 && t.DisplayTrackNo() == 1
  {
    t := new UTrack();
    t.singer := Some(id);
    t.AfterLoad(factories, singers, renderers, [t]);
  }

  /** A persisted phonemizer type that no factory creates loads as the default phonemizer. */
  method LoadUnknownPhonemizer(typeName: string, factories: seq<PhonemizerFactory>, singers: map<string, USinger>,
                               renderers: RendererRegistry) returns (t: UTrack)
    requires typeName != ""
    requires forall i :: 0 <= i < |factories| ==> factories[i].typeName != typeName
    ensures t.Phonemizer != null && t.Phonemizer.typeName == DefaultPhonemizerType && t.phonemizer.None?
  {
    t := new UTrack();
    t.phonemizer := Some(typeName);
    t.AfterLoad(factories, singers, renderers, [t]);
  }

  /**
    Validation builds the voice colour options from the singer's sub-banks
    once; when the sub-banks change later, without a new singer or a
    catalogue refresh, validating again keeps the old options.
  */
  method StaleVoiceColors(d: ExpressionDescriptor) returns (t: UTrack, s: USinger)
    ensures t.Singer == s && s.subbanks == [Subbank("green")]
    ensures t.VoiceColorExp == Some(d.(options := ["blue", "red"], max := 1))
    ensures t.TryGetExpression(map[CLR := d], CLR) == t.VoiceColorExp
  {
    s := new USinger("s1", "Singer", "Singer", "CLASSIC", [Subbank("red"), Subbank("blue"), Subbank("red")]);
    t := new UTrack();
    t.SetSinger(s);
    var expressions := map[CLR := d];
    t.Validate(expressions);
    VoiceColorsExample(d);
    assert t.VoiceColorExp == Some(d.(options := ["blue", "red"], max := 1));
    s.subbanks := [Subbank("green")];
    t.Validate(expressions);
  }

  /**
    The setter does not touch the renderer: a track that loaded a renderer
    for a found singer keeps it after the singer is removed.
  */
  method RendererOutlivesSinger(s: USinger, name: string, r: RendererInstance,
                                defaultFor: SingerType -> string) returns (t: UTrack)
    requires s.found
    ensures t.Singer == null && t.Renderer == Some(r)
  {
    t := new UTrack();
    t.singer := Some("s1");
    t.renderer := Some(name);
    t.AfterLoad([], map["s1" := s], RendererRegistry(map[name := r], defaultFor), [t]);
    t.SetSinger(null);
  }

  /**
    Saving a track and loading the saved identifiers into a new track gives
    back the same singer when the catalogue holds it under its id, a
    phonemizer of the same type when a factory creates that type, and the
    same renderer when the registry creates it from its name.
  */
  method SaveThenLoad(t: UTrack, factories: seq<PhonemizerFactory>, singers: map<string, USinger>,
                      renderers: RendererRegistry) returns (u: UTrack)
    requires t.Phonemizer != null
    modifies t`singer, t`phonemizer, t`renderer
    ensures t.Saved() && u.singer == t.singer
    ensures t.Singer != null && t.Singer.id != "" && t.Singer.id in singers && singers[t.Singer.id] == t.Singer ==>
      u.Singer == t.Singer
    ensures t.Phonemizer.typeName != "" ==>
      var f := FirstFactory(factories, Some(t.Phonemizer.typeName));
      f.Some? && !f.value.createThrows ==> u.Phonemizer != null && u.Phonemizer.typeName == t.Phonemizer.typeName
    ensures u.Singer == t.Singer && t.Singer != null && t.Singer.found && t.Renderer.Some?
            && t.Renderer.value.tag in renderers.byName && renderers.byName[t.Renderer.value.tag] == t.Renderer.value ==>
      u.Renderer == t.Renderer
  {
    t.BeforeSave();
    u := new UTrack();
    u.singer, u.phonemizer, u.renderer := t.singer, t.phonemizer, t.renderer;
    u.AfterLoad(factories, singers, renderers, [u]);
  }
}
