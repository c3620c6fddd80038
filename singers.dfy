/**
  The voice bank as `UTrack` sees it. USinger itself is not part of this
  model: only the members `UTrack` reads are kept, and its disk loading is
  reduced to setting `loaded`.
*/
module Singers {

  /** The voice-type classification (USingerType), carried by name. */
  type SingerType = string

  /** A sub-voicebank; only its colour tag matters to the track. */
  datatype Subbank = Subbank(color: string)

  class USinger {
    const id: string
    const name: string
    const displayName: string
    const found: bool
    const singerType: SingerType
    var loaded: bool
    var subbanks: seq<Subbank>

    /** A singer as the catalogue holds it: found, not yet loaded. */
    constructor (id: string, name: string, displayName: string, singerType: SingerType, subbanks: seq<Subbank>)
      ensures this.id == id && this.name == name && this.displayName == displayName
      ensures this.singerType == singerType && this.subbanks == subbanks
      ensures found && !loaded
    {
      this.id := id;
      this.name := name;
      this.displayName := displayName;
      this.found := true;
      this.singerType := singerType;
      this.loaded := false;
      this.subbanks := subbanks;
    }

    /** `USinger.CreateMissing(name)`: a placeholder that is not found and carries the name. */
    constructor Missing(name: string)
      ensures this.name == name && !found && !loaded && subbanks == []
    {
      this.id := name;
      this.name := name;
      this.displayName := name;
      this.found := false;
      this.singerType := "";
      this.loaded := false;
      this.subbanks := [];
    }

    /** `EnsureLoaded`: reads the bank's data; here it only marks the singer loaded. */
    method EnsureLoaded()
      modifies this`loaded
      ensures loaded
    {
      loaded := true;
    }
  }
}
