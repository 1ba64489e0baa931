/** The desktop generator: `generate_secure_password` and the strength rater of the
    Python application. The random choices are explicit inputs (`Draws`). */
module PasswordGen {
  import opened Text

  const Lowercase: string := CharRange('a', 26)
  const Uppercase: string := CharRange('A', 26)
  const Digits: string := CharRange('0', 10)
  /** Python's `string.punctuation`. */
  const Punctuation: string :=
    CharRange('!', 15) + CharRange(':', 7) + CharRange('[', 6) + CharRange('{', 4)
  /** Characters dropped when the caller asks to exclude look-alikes. */
  const AmbiguousChars: string := "l1Io0O"

  /** The ranges above spell out Python's letter and digit constants. */
  lemma AlphabetsAsWritten()
    ensures Lowercase == "abcdefghijklmnopqrstuvwxyz"
    ensures Uppercase == "ABCDEFGHIJKLMNOPQRSTUVWXYZ"
    ensures Digits == "0123456789"
  {
  }

  /** The four ranges of `Punctuation` spell out `string.punctuation`. */
  lemma PunctuationAsWritten()
    ensures Punctuation == "!\"#$%&'()*+,-./:;<=>?@[\\]^_`{|}~"
  {
    assert CharRange('!', 15) == "!\"#$%&'()*+,-./";
    assert CharRange(':', 7) == ":;<=>?@";
    assert CharRange('[', 6) == "[\\]^_`";
    assert CharRange('{', 4) == "{|}~";
  }

  const NoCharacterTypeMessage: string := "Error: Select at least one character type that is not excluded."
  const LengthTooShortMessage: string := "Error: Length too short for selected complexity."

  datatype Status = Success | Error

  /** The two ways the generator refuses a request. */
  datatype Failure = NoCharacterType | LengthTooShort

  /** What a request produces: a password or a refusal. */
  datatype Outcome = Password(password: string) | Failed(failure: Failure)

  function ErrorMessage(f: Failure): string {
    match f
    case NoCharacterType => NoCharacterTypeMessage
    case LengthTooShort => LengthTooShortMessage
  }

  /** The pair (text, status) that the Python function returns for an outcome. */
  function Returned(o: Outcome): (string, Status) {
    match o
    case Password(p) => (p, Success)
    case Failed(f) => (ErrorMessage(f), Error)
  }

  /** The arguments of `generate_secure_password`. */
  datatype Request = Request(length: int, useLower: bool, useUpper: bool, useNumbers: bool,
                             useSymbols: bool, excludeAmbiguous: bool)

  /** The random choices: one index per class for the required character (used only when the
      class is enabled), indices into the final alphabet for the padding, and the permutation
      applied by the shuffle. */
  datatype Draws = Draws(lowerPick: nat, upperPick: nat, digitPick: nat, symbolPick: nat,
                         padding: seq<nat>, order: seq<nat>)

  predicate NoClassEnabled(req: Request) {
    !req.useLower && !req.useUpper && !req.useNumbers && !req.useSymbols
  }

  function EnabledCount(req: Request): nat {
    Credit(req.useLower) + Credit(req.useUpper) + Credit(req.useNumbers) + Credit(req.useSymbols)
  }

  /** The alphabets of the enabled classes, in the order lower, upper, digits, punctuation. */
  function AllChars(req: Request): string {
    (if req.useLower then Lowercase else []) + (if req.useUpper then Uppercase else [])
    + (if req.useNumbers then Digits else []) + (if req.useSymbols then Punctuation else [])
  }

  predicate PicksInRange(d: Draws) {
    d.lowerPick < |Lowercase| && d.upperPick < |Uppercase| && d.digitPick < |Digits|
    && d.symbolPick < |Punctuation|
  }

  /** One character drawn from each enabled class, in the same class order. */
  function DrawnChars(req: Request, d: Draws): seq<char>
    requires PicksInRange(d)
  {
    (if req.useLower then [Lowercase[d.lowerPick]] else [])
    + (if req.useUpper then [Uppercase[d.upperPick]] else [])
    + (if req.useNumbers then [Digits[d.digitPick]] else [])
    + (if req.useSymbols then [Punctuation[d.symbolPick]] else [])
  }

  /** `s` with the ambiguous characters removed when exclusion is requested. */
  function Usable(s: string, excludeAmbiguous: bool): string {
    if excludeAmbiguous then Without(s, AmbiguousChars) else s
  }

  /** The alphabet the padding is drawn from. */
  function Alphabet(req: Request): string {
    Usable(AllChars(req), req.excludeAmbiguous)
  }

  /** The required characters that survive exclusion (dropped ones are not redrawn). */
  function Required(req: Request, d: Draws): seq<char>
    requires PicksInRange(d)
  {
    Usable(DrawnChars(req, d), req.excludeAmbiguous)
  }

  /** Every random choice is in range for the step that consumes it: enough padding indices,
      each below the alphabet's size, and a permutation of the final password's positions. */
  predicate ValidDraws(req: Request, d: Draws) {
    PicksInRange(d)
    && InRange(d.padding, |Alphabet(req)|)
    && (Alphabet(req) != [] ==> req.length <= |d.padding|)
    && (Alphabet(req) != [] && req.length >= 0 ==> IsPermutation(d.order, req.length))
  }

  /** `random.shuffle`: the list reordered by the permutation `order`. */
  function Shuffle(list: seq<char>, order: seq<nat>): (r: seq<char>)
    requires IsPermutation(order, |list|)
    ensures |r| == |list| && multiset(r) == multiset(list)
  {
    PermutedMultiset(list, order);
    Pick(list, order)
  }

  /** What `generate_secure_password` returns for a request and its random choices. */
  function Generate(req: Request, d: Draws): Outcome
    requires ValidDraws(req, d)
  {
    var alphabet := Alphabet(req);
    var required := Required(req, d);
    if alphabet == [] || required == [] then Failed(NoCharacterType)
    else if req.length < |required| then Failed(LengthTooShort)
    else
      var list := required + Pick(alphabet, d.padding[..req.length - |required|]);
      Password(Shuffle(list, d.order))
  }

  /** The generator itself, step by step as in the source. */
  method GenerateSecurePassword(length: int, useLower: bool, useUpper: bool, useNumbers: bool,
                                useSymbols: bool, excludeAmbiguous: bool, draws: Draws)
    returns (message: string, status: Status)
    requires ValidDraws(Request(length, useLower, useUpper, useNumbers, useSymbols, excludeAmbiguous), draws)
    ensures (message, status)
            == Returned(Generate(Request(length, useLower, useUpper, useNumbers, useSymbols, excludeAmbiguous), draws))
  {
    var req := Request(length, useLower, useUpper, useNumbers, useSymbols, excludeAmbiguous);
    var allChars, requiredChars := Candidates(req, draws);
    if allChars == [] || requiredChars == [] {
      return NoCharacterTypeMessage, Error;
    }
    if length < |requiredChars| {
      return LengthTooShortMessage, Error;
    }
    var passwordList := Assemble(req, draws, allChars, requiredChars);
    return passwordList, Success;
  }

  /** The class walk followed by the ambiguity filter, applied to both lists. */
  method Candidates(req: Request, draws: Draws) returns (allChars: string, requiredChars: seq<char>)
    requires PicksInRange(draws)
    ensures allChars == Alphabet(req) && requiredChars == Required(req, draws)
  {
    allChars, requiredChars := CollectClasses(req, draws);
    if req.excludeAmbiguous {
      allChars := RemoveEach(allChars, AmbiguousChars);
      requiredChars := KeepAllowed(requiredChars, AmbiguousChars);
    }
  }

  /** The padding draw and the shuffle, once both checks have passed. */
  method Assemble(req: Request, draws: Draws, allChars: string, requiredChars: seq<char>)
    returns (passwordList: seq<char>)
    requires ValidDraws(req, draws)
    requires allChars == Alphabet(req) && requiredChars == Required(req, draws)
    requires allChars != [] && requiredChars != [] && |requiredChars| <= req.length
    ensures Generate(req, draws) == Password(passwordList)
  {
    var remainingLength := req.length - |requiredChars|;
    var padding := DrawPadding(allChars, draws.padding, remainingLength);
    passwordList := requiredChars + padding;
    passwordList := Shuffle(passwordList, draws.order);
  }

  /** The walk over the enabled classes: each appends its alphabet and one drawn character. */
  method CollectClasses(req: Request, draws: Draws) returns (allChars: string, requiredChars: seq<char>)
    requires PicksInRange(draws)
    ensures allChars == AllChars(req) && requiredChars == DrawnChars(req, draws)
  {
    allChars, requiredChars := "", [];
    if req.useLower {
      allChars := allChars + Lowercase;
      requiredChars := requiredChars + [Lowercase[draws.lowerPick]];
    }
    if req.useUpper {
      allChars := allChars + Uppercase;
      requiredChars := requiredChars + [Uppercase[draws.upperPick]];
    }
    if req.useNumbers {
      allChars := allChars + Digits;
      requiredChars := requiredChars + [Digits[draws.digitPick]];
    }
    if req.useSymbols {
      allChars := allChars + Punctuation;
      requiredChars := requiredChars + [Punctuation[draws.symbolPick]];
    }
  }

  /** `all_chars.replace(char, '')` for each character of `excluded` in turn (the source
      passes the ambiguous characters). */
  method RemoveEach(chars: string, excluded: string) returns (r: string)
    ensures r == Without(chars, excluded)
  {
    r := chars;
    WithoutNoneExcluded(chars, []);
    for i := 0 to |excluded|
      invariant r == Without(chars, excluded[..i])
    {
      WithoutOneMore(chars, excluded[..i], excluded[i]);
      assert excluded[..i + 1] == excluded[..i] + [excluded[i]];
      r := Without(r, [excluded[i]]);
    }
    assert excluded[..|excluded|] == excluded;
  }

  /** The `temp_required` loop: keeps the required characters not in `excluded` (the source
      passes the ambiguous characters). */
  method KeepAllowed(required: seq<char>, excluded: string) returns (kept: seq<char>)
    ensures kept == Without(required, excluded)
  {
    kept := [];
    for i := 0 to |required|
      invariant kept == Without(required[..i], excluded)
    {
      var c := required[i];
      assert required[..i + 1] == required[..i] + [c];
      WithoutAppend(required[..i], [c], excluded);
      assert Without([c], excluded) == if c in excluded then [] else [c];
      if c !in excluded {
        kept := kept + [c];
      }
    }
    assert required[..|required|] == required;
  }

  /** `[random.choice(all_chars) for _ in range(remaining_length)]`. */
  method DrawPadding(allChars: string, picks: seq<nat>, count: nat) returns (padding: seq<char>)
    requires count <= |picks| && InRange(picks, |allChars|)
    ensures InRange(picks[..count], |allChars|) && padding == Pick(allChars, picks[..count])
    ensures |padding| == count && forall c :: c in padding ==> c in allChars
  {
    padding := [];
    for k := 0 to count
      invariant padding == Pick(allChars, picks[..k])
    {
      assert picks[..k + 1] == picks[..k] + [picks[k]];
      padding := padding + [allChars[picks[k]]];
    }
  }

  // ---------------------------------------------------------------------------------------
  // Properties of the generator

  /** The drawn characters come from the enabled alphabets, one per enabled class. */
  lemma DrawnFromAlphabets(req: Request, d: Draws)
    requires PicksInRange(d)
    ensures |DrawnChars(req, d)| == EnabledCount(req)
    ensures forall c :: c in DrawnChars(req, d) ==> c in AllChars(req)
  {
  }

  /** Exactly one required character per enabled class without exclusion; at most that
      many with exclusion, since dropped characters are not redrawn. */
  lemma RequiredCount(req: Request, d: Draws)
    requires PicksInRange(d)
    ensures !req.excludeAmbiguous ==> |Required(req, d)| == EnabledCount(req)
    ensures req.excludeAmbiguous ==> |Required(req, d)| <= EnabledCount(req)
  {
    DrawnFromAlphabets(req, d);
  }

  /** Exclusion never empties an enabled class: the alphabet is empty only when no class
      is enabled. */
  lemma AlphabetEmptyIff(req: Request)
    ensures Alphabet(req) == [] <==> NoClassEnabled(req)
  {
    var all := AllChars(req);
    if req.useLower {
      assert 'a' == Lowercase[0] && 'a' in all;
    } else if req.useUpper {
      assert 'A' == Uppercase[0] && 'A' in all;
    } else if req.useNumbers {
      assert '2' == Digits[2] && '2' in all;
    } else if req.useSymbols {
      assert '!' == Punctuation[0] && '!' in all;
    }
    if !NoClassEnabled(req) {
      var c := if req.useLower then 'a' else if req.useUpper then 'A'
               else if req.useNumbers then '2' else '!';
      assert c in all && c !in AmbiguousChars;
      assert c in Alphabet(req);
    }
  }

  /** The surviving required characters are characters of the alphabet. */
  lemma RequiredInAlphabet(req: Request, d: Draws)
    requires PicksInRange(d)
    ensures forall c :: c in Required(req, d) ==> c in Alphabet(req)
  {
    DrawnFromAlphabets(req, d);
  }

  /** The "no usable character type" error is returned exactly when no class is enabled or
      every drawn required character was ambiguous and dropped, whatever the length. */
  lemma NoCharacterTypeIff(req: Request, d: Draws)
    requires ValidDraws(req, d)
    ensures Generate(req, d) == Failed(NoCharacterType)
        <==> NoClassEnabled(req)
             || (req.excludeAmbiguous && forall c :: c in DrawnChars(req, d) ==> c in AmbiguousChars)
  {
    AlphabetEmptyIff(req);
    DrawnFromAlphabets(req, d);
    RequiredInAlphabet(req, d);
    if Required(req, d) != [] {
      assert Required(req, d)[0] in Required(req, d);
    }
  }

  /** The length error is returned exactly when some required character survives but the
      requested length cannot hold them all. */
  lemma LengthTooShortIff(req: Request, d: Draws)
    requires ValidDraws(req, d)
    ensures Generate(req, d) == Failed(LengthTooShort)
        <==> Required(req, d) != [] && req.length < |Required(req, d)|
  {
    RequiredInAlphabet(req, d);
    if Required(req, d) != [] {
      assert Required(req, d)[0] in Alphabet(req);
    }
  }

  /** Success exactly when no error branch is taken; then the password has the requested
      length, made of the required characters plus `length - |required|` padding draws. */
  lemma SuccessIff(req: Request, d: Draws)
    requires ValidDraws(req, d)
    ensures Generate(req, d).Password?
        <==> Required(req, d) != [] && |Required(req, d)| <= req.length
    ensures Generate(req, d).Password? ==> |Generate(req, d).password| == req.length
  {
    RequiredInAlphabet(req, d);
    if Required(req, d) != [] {
      assert Required(req, d)[0] in Alphabet(req);
    }
  }

  /** A successful password is a permutation of the required characters followed by the
      padding draws; in particular every surviving required character occurs in it. */
  lemma SuccessMultiset(req: Request, d: Draws)
    requires ValidDraws(req, d) && Generate(req, d).Password?
    ensures var required := Required(req, d);
            var padding := d.padding[..req.length - |required|];
            InRange(padding, |Alphabet(req)|)
            && multiset(Generate(req, d).password)
               == multiset(required) + multiset(Pick(Alphabet(req), padding))
    ensures forall c :: c in Required(req, d) ==> c in Generate(req, d).password
  {
    var required := Required(req, d);
    var padding := Pick(Alphabet(req), d.padding[..req.length - |required|]);
    var password := Generate(req, d).password;
    assert multiset(password) == multiset(required + padding);
    MultisetMembers(password, required + padding);
  }

  /** Every character of a successful password belongs to an enabled class's alphabet and,
      with exclusion, is not ambiguous. */
  lemma SuccessAlphabet(req: Request, d: Draws)
    requires ValidDraws(req, d) && Generate(req, d).Password?
    ensures forall c :: c in Generate(req, d).password ==>
              c in AllChars(req) && (req.excludeAmbiguous ==> c !in AmbiguousChars)
  {
    var required := Required(req, d);
    var padding := Pick(Alphabet(req), d.padding[..req.length - |required|]);
    var password := Generate(req, d).password;
    MultisetMembers(password, required + padding);
    RequiredInAlphabet(req, d);
    forall c | c in password ensures c in Alphabet(req) {
      if c !in required {
        assert c in padding;
        var i :| 0 <= i < |padding| && padding[i] == c;
      }
    }
  }

  /** With exclusion requested, a successful password contains no ambiguous character. */
  lemma SuccessExcludesAmbiguous(req: Request, d: Draws)
    requires ValidDraws(req, d) && Generate(req, d).Password? && req.excludeAmbiguous
    ensures forall i :: 0 <= i < |Generate(req, d).password| ==> Generate(req, d).password[i] !in AmbiguousChars
  {
    SuccessAlphabet(req, d);
  }

  /** Each enabled class whose required character survived is represented in a successful
      password; without exclusion this is every enabled class. */
  lemma ClassesRepresented(req: Request, d: Draws)
    requires ValidDraws(req, d) && Generate(req, d).Password?
    ensures var password, excl := Generate(req, d).password, req.excludeAmbiguous;
            && ((req.useLower && (!excl || Lowercase[d.lowerPick] !in AmbiguousChars))
                ==> exists c :: c in password && c in Lowercase)
            && ((req.useUpper && (!excl || Uppercase[d.upperPick] !in AmbiguousChars))
                ==> exists c :: c in password && c in Uppercase)
            && ((req.useNumbers && (!excl || Digits[d.digitPick] !in AmbiguousChars))
                ==> exists c :: c in password && c in Digits)
            && ((req.useSymbols && (!excl || Punctuation[d.symbolPick] !in AmbiguousChars))
                ==> exists c :: c in password && c in Punctuation)
  {
    SuccessMultiset(req, d);
    var drawn, excl := DrawnChars(req, d), req.excludeAmbiguous;
    assert forall c :: c in drawn && (!excl || c !in AmbiguousChars) ==> c in Required(req, d);
    if req.useLower { assert Lowercase[d.lowerPick] in drawn; }
    if req.useUpper { assert Uppercase[d.upperPick] in drawn; }
    if req.useNumbers { assert Digits[d.digitPick] in drawn; }
    if req.useSymbols { assert Punctuation[d.symbolPick] in drawn; }
  }

  /** A concrete request that cannot fit its four required characters. */
  lemma LengthTwoAllClassesTooShort(d: Draws)
    requires ValidDraws(Request(2, true, true, true, true, false), d)
    ensures Generate(Request(2, true, true, true, true, false), d)
            == Failed(LengthTooShort)
  {
    var req := Request(2, true, true, true, true, false);
    LengthTooShortIff(req, d);
    RequiredCount(req, d);
  }

  /** A sixteen-character request with every class: success, length 16, every class present. */
  lemma SixteenAllClassesSucceeds(d: Draws)
    requires ValidDraws(Request(16, true, true, true, true, false), d)
    ensures var g := Generate(Request(16, true, true, true, true, false), d);
            g.Password? && |g.password| == 16
            && (exists c :: c in g.password && c in Lowercase)
            && (exists c :: c in g.password && c in Uppercase)
            && (exists c :: c in g.password && c in Digits)
            && (exists c :: c in g.password && c in Punctuation)
  {
    var req := Request(16, true, true, true, true, false);
    RequiredCount(req, d);
    SuccessIff(req, d);
    ClassesRepresented(req, d);
  }

  /** Dropping an ambiguous required character without a redraw can leave an enabled class
      that still has usable characters out of the password: lowercase and punctuation
      enabled, length 1, the lowercase draw is 'o' and the punctuation draw is '!'. */
  lemma DroppedClassExample()
    ensures var req := Request(1, true, false, false, true, true);
            var d := Draws(14, 0, 0, 0, [0], [0]);
            ValidDraws(req, d)
            && Generate(req, d) == Password("!")
            && (exists c :: c in Alphabet(req) && c in Lowercase)
  {
    var req := Request(1, true, false, false, true, true);
    var d := Draws(14, 0, 0, 0, [0], [0]);
    DroppedClassSetting();
    assert ['!'] + Pick(Alphabet(req), d.padding[..0]) == ['!'];
    assert Pick(['!'], [0]) == ['!'];
  }

  /** The request and draws of the example above: the lowercase draw 'o' is dropped. */
  lemma DroppedClassSetting()
    ensures var req := Request(1, true, false, false, true, true);
            var d := Draws(14, 0, 0, 0, [0], [0]);
            ValidDraws(req, d) && Required(req, d) == ['!'] && 'a' in Alphabet(req)
  {
    var req := Request(1, true, false, false, true, true);
    var d := Draws(14, 0, 0, 0, [0], [0]);
    assert 'a' in AllChars(req) by {
      assert Lowercase[0] == 'a';
    }
    assert DrawnChars(req, d) == ['o', '!'] by {
      assert Lowercase[14] == 'o' && Punctuation[0] == '!';
    }
    assert Without(['!'], AmbiguousChars) == ['!'];
    assert ['o', '!'][1..] == ['!'];
    assert Iota(1) == [0];
  }

  // ---------------------------------------------------------------------------------------
  // Strength rating (`get_password_strength`)

  predicate HasPunctuation(p: string) { exists c :: c in p && c in Punctuation }

  /** One point for each of: length at least 12, a lowercase letter, an uppercase letter,
      a digit, a punctuation character. */
  function StrengthScore(password: string): (score: nat)
    ensures score <= 5
    ensures score == 5 <==> |password| >= 12 && HasLower(password) && HasUpper(password)
                            && HasDigit(password) && HasPunctuation(password)
  {
    Credit(|password| >= 12) + Credit(HasLower(password)) + Credit(HasUpper(password))
    + Credit(HasDigit(password)) + Credit(HasPunctuation(password))
  }

  /** The label and colour shown for a password. */
  function GetPasswordStrength(password: string): (r: (string, string))
    ensures r == ("Weak", "red") <==> StrengthScore(password) <= 2
    ensures r == ("Moderate", "orange") <==> 3 <= StrengthScore(password) <= 4
    ensures r == ("Strong!", "green") <==> StrengthScore(password) == 5
  {
    var score := StrengthScore(password);
    if score <= 2 then ("Weak", "red")
    else if score <= 4 then ("Moderate", "orange")
    else ("Strong!", "green")
  }

  /** Twelve lowercase letters score 2 and rate Weak. */
  lemma TwelveLowercaseIsWeak()
    ensures StrengthScore("aaaaaaaaaaaa") == 2
    ensures GetPasswordStrength("aaaaaaaaaaaa") == ("Weak", "red")
  {
    var p := "aaaaaaaaaaaa";
    assert forall c :: c in p ==> c == 'a';
    assert p[0] in p && IsLower(p[0]);
    assert !HasPunctuation(p);
  }

  /** Twelve characters covering all four classes score 5 and rate Strong!. */
  lemma AllClassesTwelveIsStrong()
    ensures StrengthScore("Ab3!Ab3!Ab3!") == 5
    ensures GetPasswordStrength("Ab3!Ab3!Ab3!") == ("Strong!", "green")
  {
    var p := "Ab3!Ab3!Ab3!";
    assert p[0] in p && IsUpper(p[0]);
    assert p[1] in p && IsLower(p[1]);
    assert p[2] in p && IsDigit(p[2]);
    assert p[3] in p && p[3] == Punctuation[0];
  }

  /** A successful password of length at least 12 from all four classes without exclusion
      always rates Strong!. */
  lemma GeneratedStrong(length: int, d: Draws)
    requires length >= 12
    requires ValidDraws(Request(length, true, true, true, true, false), d)
    ensures var g := Generate(Request(length, true, true, true, true, false), d);
            g.Password? && GetPasswordStrength(g.password) == ("Strong!", "green")
  {
    var req := Request(length, true, true, true, true, false);
    RequiredCount(req, d);
    SuccessIff(req, d);
    var p := Generate(req, d).password;
    assert Lowercase[d.lowerPick] in Required(req, d) && IsLower(Lowercase[d.lowerPick]);
    assert Uppercase[d.upperPick] in Required(req, d) && IsUpper(Uppercase[d.upperPick]);
    assert Digits[d.digitPick] in Required(req, d) && IsDigit(Digits[d.digitPick]);
    assert Punctuation[d.symbolPick] in Required(req, d);
    SuccessMultiset(req, d);
  }
}
