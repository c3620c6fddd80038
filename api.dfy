/** The phonemizer strategy and the registry of its factories (OpenUtau.Api). */
module Api {
  import opened Wrappers
  import opened Singers

  /**
    A live phonemizer. `typeName` is `GetType().FullName`; `notified` records
    every `SetSinger` call the phonemizer has received, in order.
  */
  class PhonemizerInstance {
    const typeName: string
    var singer: USinger?
    ghost var notified: seq<USinger?>

    constructor (typeName: string)
      ensures this.typeName == typeName && singer == null && notified == []
    {
      this.typeName := typeName;
      this.singer := null;
      this.notified := [];
    }

    method SetSinger(s: USinger?)
      modifies this`singer, this`notified
      ensures singer == s && notified == old(notified) + [s]
    {
      singer := s;
      notified := notified + [s];
    }
  }

  /** A registered factory: the type it creates, and whether `Create()` throws. */
  datatype PhonemizerFactory = PhonemizerFactory(typeName: string, createThrows: bool)

  /** `factory.type.FullName == name` for a nullable `name`. */
  predicate Matches(f: PhonemizerFactory, name: Option<string>) {
    name == Some(f.typeName)
  }

  /** `factories.FirstOrDefault(f => f.type.FullName == name)`. */
  function FirstFactory(factories: seq<PhonemizerFactory>, name: Option<string>): (r: Option<PhonemizerFactory>)
    ensures r.None? <==> forall i :: 0 <= i < |factories| ==> !Matches(factories[i], name)
    ensures r.Some? ==> exists i :: 0 <= i < |factories| && factories[i] == r.value && Matches(r.value, name)
                                    && forall j :: 0 <= j < i ==> !Matches(factories[j], name)
    decreases |factories|
  {
    if factories == [] then None
    else if Matches(factories[0], name) then Some(factories[0])
    else
      var r := FirstFactory(factories[1..], name);
      if r.Some? then
        var i :| 0 <= i < |factories[1..]| && factories[1..][i] == r.value && Matches(r.value, name)
                 && forall j :: 0 <= j < i ==> !Matches(factories[1..][j], name);
        assert factories[i + 1] == r.value;
        assert forall j :: 1 <= j < i + 1 ==> factories[j] == factories[1..][j - 1];
        r
      else
        assert forall i :: 1 <= i < |factories| ==> factories[i] == factories[1..][i - 1];
        r
  }

  /** `factory.Create()`: a fresh instance of the factory's type, or nothing when it throws. */
  method Create(f: PhonemizerFactory) returns (p: Option<PhonemizerInstance>)
    ensures p.None? <==> f.createThrows
    ensures p.Some? ==> fresh(p.value) && p.value.typeName == f.typeName
                        && p.value.singer == null && p.value.notified == []
  {
    if f.createThrows {
      p := None;
    } else {
      var q := new PhonemizerInstance(f.typeName);
      p := Some(q);
    }
  }
}
