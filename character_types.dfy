/** The playable character types: a string-backed enumeration with a display
    name per case and the list of backing values offered as choices. */
module CharacterTypes {
  import opened Results

  datatype CharacterType = Fighter | Archer | Mage {

    /** The backing value: a non-empty lower-case word. */
    function Value(): (value: string)
      ensures |value| > 0 && forall i | 0 <= i < |value| :: 'a' <= value[i] <= 'z'
    {
      match this
      case Fighter => "fighter"
      case Archer => "archer"
      case Mage => "mage"
    }

    /** The display name: the backing value with its first letter capitalised. */
    function Name(): (name: string)
      ensures |name| == |Value()| > 0
      ensures name[0] == Capital(Value()[0]) && name[1..] == Value()[1..]
    {
      match this
      case Fighter => "Fighter"
      case Archer => "Archer"
      case Mage => "Mage"
    }
  }

  function Capital(c: char): char {
    if 'a' <= c <= 'z' then (c as int - 'a' as int + 'A' as int) as char else c
  }

  /** The cases in declaration order. */
  const Cases: seq<CharacterType> := [Fighter, Archer, Mage]

  /** The case with the given backing value, if any. */
  function From(value: string): (t: Option<CharacterType>)
    ensures t.Some? ==> t.value.Value() == value
    ensures t.None? ==> forall c: CharacterType :: c.Value() != value
  {
    if value == "fighter" then Some(Fighter)
    else if value == "archer" then Some(Archer)
    else if value == "mage" then Some(Mage)
    else None
  }

  /** The backing values of the cases, in declaration order. */
  method Choices() returns (choices: seq<string>)
    ensures |choices| == |Cases|
    ensures forall i | 0 <= i < |Cases| :: choices[i] == Cases[i].Value()
  {
    choices := [];
    var i := 0;
    while i < |Cases|
      invariant 0 <= i <= |Cases|
      invariant |choices| == i
      invariant forall j | 0 <= j < i :: choices[j] == Cases[j].Value()
    {
      choices := choices + [Cases[i].Value()];
      i := i + 1;
    }
  }

  /** Every case is listed once, and reading back a listed value gives the
      case at the same position, so the choices are distinct. */
  lemma CasesRoundTrip()
    ensures forall t: CharacterType :: t in Cases
    ensures forall i, j | 0 <= i < j < |Cases| :: Cases[i].Value() != Cases[j].Value()
    ensures forall i | 0 <= i < |Cases| :: From(Cases[i].Value()) == Some(Cases[i])
  {
    forall t: CharacterType ensures t in Cases {
      match t
      case Fighter => assert Cases[0] == t;
      case Archer => assert Cases[1] == t;
      case Mage => assert Cases[2] == t;
    }
  }

  /** `From` inverts `Value`, in both directions. */
  lemma FromInvertsValue(t: CharacterType, value: string)
    ensures From(value) == Some(t) <==> t.Value() == value
  {
  }
}
