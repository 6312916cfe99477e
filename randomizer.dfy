/** The random string generator page: its state, the generate action and the
    strength label shown next to the length slider. */
module RandomizerPage {
  import opened CharacterSets
  import opened Sampling

  datatype Option<T> = None | Some(value: T)

  /** The notification raised instead of a result. */
  datatype Toast = Toast(title: string, description: string, destructive: bool)

  const EmptyCharsetToast: Toast :=
    Toast("Error", "Please select at least one character type", true)

  datatype Strength = Weak | Medium | Strong {
    function Label(): string {
      match this
      case Weak => "Weak"
      case Medium => "Medium"
      case Strong => "Strong"
    }

    function Rank(): nat {
      match this
      case Weak => 0
      case Medium => 1
      case Strong => 2
    }
  }

  /** The strength label: a function of the length alone. */
  function StrengthOf(length: int): (s: Strength)
    ensures s == Weak <==> length < 8
    ensures s == Medium <==> 8 <= length < 16
    ensures s == Strong <==> 16 <= length
  {
    if length < 8 then Weak else if length < 16 then Medium else Strong
  }

  /** A longer string is never labelled weaker than a shorter one. */
  lemma StrengthMonotone(shorter: int, longer: int)
    requires shorter <= longer
    ensures StrengthOf(shorter).Rank() <= StrengthOf(longer).Rank()
  {
  }

  /** The largest buffer, in bytes, that `crypto.getRandomValues` of the Web
      Cryptography API fills; a larger one makes it throw a
      `QuotaExceededError`. */
  const MaxRandomBytes: nat := 65536
  const QuotaExceededError: string := "QuotaExceededError"

  /** How a call to the generate action ends. */
  datatype Outcome =
    | Generated              // the new string is stored
    | Toasted(toast: Toast)  // the error toast is raised and the handler returns
    | Thrown(error: string)  // an exception escapes the handler

  /** Stand-in for `crypto.getRandomValues`: fills the whole buffer, in place,
      with the words the entropy source hands out, or throws when the buffer
      is over the byte quota and leaves it as it was. */
  method GetRandomValues(buffer: array<uint32>, entropy: seq<uint32>) returns (error: Option<string>)
    requires buffer.Length == |entropy|
    modifies buffer
    ensures error == None <==> 4 * buffer.Length <= MaxRandomBytes
    ensures error != None ==> error == Some(QuotaExceededError) && buffer[..] == old(buffer[..])
    ensures error == None ==> buffer[..] == entropy
  {
    if 4 * buffer.Length > MaxRandomBytes {
      return Some(QuotaExceededError);
    }
    forall i | 0 <= i < buffer.Length {
      buffer[i] := entropy[i];
    }
    error := None;
  }

  class Randomizer {
    var length: nat
    var includeUppercase: bool
    var includeLowercase: bool
    var includeNumbers: bool
    var includeSymbols: bool
    var randomString: string

    /** The charset the current switches select. */
    function Charset(): string
      reads this
    {
      Alphabet(includeUppercase, includeLowercase, includeNumbers, includeSymbols)
    }

    /** The page's initial state. */
    constructor ()
      ensures length == 16
      ensures includeUppercase && includeLowercase && includeNumbers && !includeSymbols
      ensures randomString == ""
    {
      length := 16;
      includeUppercase, includeLowercase, includeNumbers, includeSymbols := true, true, true, false;
      randomString := "";
    }

    /** Generates a new string from the current switches and length, drawing
        the words in `entropy`. With no class enabled it raises the error
        toast; with a buffer over the quota the entropy call throws; in both
        cases the stored string stays as it was. */
    method GenerateRandomString(entropy: seq<uint32>) returns (outcome: Outcome)
      requires |entropy| == length
      modifies this`randomString
      ensures outcome.Toasted? <==> Charset() == ""
      ensures outcome.Toasted? <==> !includeUppercase && !includeLowercase && !includeNumbers && !includeSymbols
      ensures outcome.Toasted? ==> outcome.toast == EmptyCharsetToast
      ensures outcome.Thrown? <==> Charset() != "" && 4 * length > MaxRandomBytes
      ensures outcome.Thrown? ==> outcome.error == QuotaExceededError
      ensures !outcome.Generated? ==> randomString == old(randomString)
      ensures outcome.Generated? ==>
        && randomString == Render(Charset(), entropy)
        && |randomString| == length
        && (forall i | 0 <= i < length :: randomString[i] == Charset()[entropy[i] as int % |Charset()|])
        && (forall c | c in randomString :: c in Charset())
    {
      var charset := BuildCharset(includeUppercase, includeLowercase, includeNumbers, includeSymbols);
      if charset == "" {
        outcome := Toasted(EmptyCharsetToast);
        return;
      }
      var randomValues := new uint32[length];
      var error := GetRandomValues(randomValues, entropy);
      if error.Some? {
        outcome := Thrown(error.value);
        return;
      }
      var result := MapWords(charset, randomValues);
      randomString := result;
      outcome := Generated;
      forall i | 0 <= i < length
        ensures randomString[i] == charset[entropy[i] as int % |charset|]
      {
        RenderAt(charset, entropy, i);
      }
      RenderInCharset(charset, entropy);
    }
  }
}
