/** The browser generator of script.js: `generatePassword`, `getRandomChar`,
    `shuffleString` and `calculateStrength`. Every `Math.random()` value is an explicit
    real in [0, 1). */
module Script {
  import opened Text

  /** `charSets`. */
  const Uppercase: string := CharRange('A', 26)
  const Lowercase: string := CharRange('a', 26)
  const Numbers: string := CharRange('0', 10)
  const Symbols: string := "!@#$%^&*()_+-=[]{}|;:,.<>?"

  /** The ranges above spell out the letter and digit sets of `charSets`. */
  lemma CharSetsAsWritten()
    ensures Uppercase == "ABCDEFGHIJKLMNOPQRSTUVWXYZ"
    ensures Lowercase == "abcdefghijklmnopqrstuvwxyz"
    ensures Numbers == "0123456789"
  {
  }

  /** The four class checkboxes. */
  datatype Options = Options(uppercase: bool, lowercase: bool, numbers: bool, symbols: bool)

  predicate AnyChecked(o: Options) { o.uppercase || o.lowercase || o.numbers || o.symbols }

  /** The values `Math.random()` returns, in the roles that consume them: one per class for
      its guaranteed character, then one per padding character, then one per shuffle step. */
  datatype Draws = Draws(upper: real, lower: real, number: real, symbol: real,
                         padding: seq<real>, shuffle: seq<real>)

  predicate IsUnit(u: real) { 0.0 <= u < 1.0 }

  predicate AllUnit(us: seq<real>) { forall k :: 0 <= k < |us| ==> IsUnit(us[k]) }

  /** Enough values, each in [0, 1): `length` padding steps at most, and one shuffle step per
      position but the first of a password of at most max(length, 4) characters. */
  predicate ValidDraws(length: int, d: Draws) {
    IsUnit(d.upper) && IsUnit(d.lower) && IsUnit(d.number) && IsUnit(d.symbol)
    && AllUnit(d.padding) && AllUnit(d.shuffle)
    && length <= |d.padding| && length <= |d.shuffle| + 1 && 3 <= |d.shuffle|
  }

  /** `Math.floor(u * n)`: an index in [0, n) for every u in [0, 1). */
  function RandomIndex(u: real, n: nat): (k: nat)
    requires IsUnit(u) && n > 0
    ensures k < n
  {
    var x := u * n as real;
    assert 0.0 <= x < n as real by {
      assert x == n as real - (1.0 - u) * n as real;
      assert (1.0 - u) * n as real > 0.0;
    }
    x.Floor
  }

  /** `getRandomChar`: on a non-empty string, one of its characters. */
  function GetRandomChar(str: string, u: real): (c: char)
    requires str != [] && IsUnit(u)
    ensures c in str
  {
    str[RandomIndex(u, |str|)]
  }

  /** The alphabets of the checked classes, in the order upper, lower, numbers, symbols. */
  function Available(o: Options): string {
    (if o.uppercase then Uppercase else []) + (if o.lowercase then Lowercase else [])
    + (if o.numbers then Numbers else []) + (if o.symbols then Symbols else [])
  }

  /** One character drawn from each checked class, in the same order. */
  function Guaranteed(o: Options, d: Draws): (g: seq<char>)
    requires IsUnit(d.upper) && IsUnit(d.lower) && IsUnit(d.number) && IsUnit(d.symbol)
    ensures forall c :: c in g ==> c in Available(o)
  {
    (if o.uppercase then [GetRandomChar(Uppercase, d.upper)] else [])
    + (if o.lowercase then [GetRandomChar(Lowercase, d.lower)] else [])
    + (if o.numbers then [GetRandomChar(Numbers, d.number)] else [])
    + (if o.symbols then [GetRandomChar(Symbols, d.symbol)] else [])
  }

  /** The exclusion step, taken only when the exclusion field is not empty. */
  function Kept(s: string, excludeChars: string): string {
    if excludeChars != [] then Without(s, excludeChars) else s
  }

  /** How many padding characters are appended: none once the guaranteed ones reach `length`. */
  function PadCount(length: int, guaranteed: nat): nat {
    if length > guaranteed then length - guaranteed else 0
  }

  /** The padding characters, one `getRandomChar(availableChars)` per value. */
  function Padding(alphabet: string, us: seq<real>, count: nat): (p: seq<char>)
    requires count <= |us| && AllUnit(us) && (count > 0 ==> alphabet != [])
    ensures |p| == count && forall c :: c in p ==> c in alphabet
  {
    seq(count, k requires 0 <= k < count => GetRandomChar(alphabet, us[k]))
  }

  /** `shuffleString`: the Fisher–Yates shuffle, in place on an array of the characters. */
  method ShuffleString(str: string, us: seq<real>) returns (r: string)
    requires AllUnit(us) && |str| <= |us| + 1
    ensures |r| == |str| && multiset(r) == multiset(str)
  {
    var arr := new char[|str|](k requires 0 <= k < |str| => str[k]);
    assert arr[..] == str;
    var i := arr.Length - 1;
    while i > 0
      invariant -1 <= i < arr.Length
      invariant multiset(arr[..]) == multiset(str)
    {
      var j := RandomIndex(us[arr.Length - 1 - i], i + 1);
      arr[i], arr[j] := arr[j], arr[i];
      i := i - 1;
    }
    r := arr[..];
  }

  /** The three labels of the strength meter. */
  datatype Strength = Weak | Medium | Strong

  /** `/[^a-zA-Z\d]/`: any character that is not an ASCII letter or digit. */
  predicate HasOther(p: string) { exists c :: c in p && !IsAlphanumeric(c) }

  /** One point for each of the lengths 8, 12 and 16 that the password reaches. */
  function LengthCredit(n: nat): (k: nat)
    ensures k <= 3
  {
    Credit(n >= 8) + Credit(n >= 12) + Credit(n >= 16)
  }

  /** The score `calculateStrength` accumulates. */
  function StrengthScore(p: string): (score: nat)
    ensures score <= 7
  {
    LengthCredit(|p|) + Credit(HasLower(p)) + Credit(HasUpper(p)) + Credit(HasDigit(p))
    + Credit(HasOther(p))
  }

  /** The meter's label for a score. */
  function Rating(score: nat): (s: Strength)
    ensures s == Weak <==> score <= 3
    ensures s == Medium <==> 4 <= score <= 5
    ensures s == Strong <==> score >= 6
  {
    if score <= 3 then Weak else if score <= 5 then Medium else Strong
  }

  /** `calculateStrength`, accumulating the score step by step. */
  method CalculateStrength(password: string) returns (score: nat, strength: Strength)
    ensures score == StrengthScore(password) && score <= 7
    ensures strength == Rating(score)
  {
    score := 0;
    if |password| >= 8 { score := score + 1; }
    if |password| >= 12 { score := score + 1; }
    if |password| >= 16 { score := score + 1; }
    if HasLower(password) { score := score + 1; }
    if HasUpper(password) { score := score + 1; }
    if HasDigit(password) { score := score + 1; }
    if HasOther(password) { score := score + 1; }
    if score <= 3 {
      strength := Weak;
    } else if score <= 5 {
      strength := Medium;
    } else {
      strength := Strong;
    }
  }

  /** What `generatePassword` leaves on the page: the class error, a password and its
      strength, or (where the source would append `undefined`) a padding draw from an
      alphabet that exclusion emptied. */
  datatype Outcome = CharError | UndefinedPadding | Shown(password: string, strength: Strength)

  /** The checkbox walk of `generatePassword`: each checked class appends its alphabet and
      one `getRandomChar` from it. */
  method CollectCharSets(o: Options, d: Draws) returns (availableChars: string, guaranteedChars: seq<char>)
    requires IsUnit(d.upper) && IsUnit(d.lower) && IsUnit(d.number) && IsUnit(d.symbol)
    ensures availableChars == Available(o) && guaranteedChars == Guaranteed(o, d)
  {
    availableChars, guaranteedChars := "", [];
    if o.uppercase {
      availableChars := availableChars + Uppercase;
      guaranteedChars := guaranteedChars + [GetRandomChar(Uppercase, d.upper)];
    }
    if o.lowercase {
      availableChars := availableChars + Lowercase;
      guaranteedChars := guaranteedChars + [GetRandomChar(Lowercase, d.lower)];
    }
    if o.numbers {
      availableChars := availableChars + Numbers;
      guaranteedChars := guaranteedChars + [GetRandomChar(Numbers, d.number)];
    }
    if o.symbols {
      availableChars := availableChars + Symbols;
      guaranteedChars := guaranteedChars + [GetRandomChar(Symbols, d.symbol)];
    }
  }

  /** The `for (let char of guaranteedChars) password += char` loop of `generatePassword`. */
  method JoinChars(chars: seq<char>) returns (password: string)
    ensures password == chars
  {
    password := "";
    for k := 0 to |chars|
      invariant password == chars[..k]
    {
      password := password + [chars[k]];
    }
  }

  /** The padding loop of `generatePassword`: `count` calls of `getRandomChar(availableChars)`. */
  method AppendPadding(password: string, availableChars: string, us: seq<real>, count: nat)
    returns (r: string)
    requires count <= |us| && AllUnit(us) && (count > 0 ==> availableChars != [])
    ensures r == password + Padding(availableChars, us, count)
  {
    r := password;
    var i := 0;
    while i < count
      invariant 0 <= i <= count
      invariant r == password + Padding(availableChars, us, i)
    {
      r := r + [GetRandomChar(availableChars, us[i])];
      i := i + 1;
    }
  }

  /** The exclusion step of `generatePassword`: both the alphabet and the guaranteed
      characters lose every character of a non-empty `excludeChars`. */
  method ExcludeChars(availableChars: string, guaranteedChars: seq<char>, excludeChars: string)
    returns (alphabet: string, guaranteed: seq<char>)
    requires forall c :: c in guaranteedChars ==> c in availableChars
    ensures alphabet == Kept(availableChars, excludeChars)
    ensures guaranteed == Kept(guaranteedChars, excludeChars)
    ensures forall c :: c in guaranteed ==> c in alphabet
    ensures guaranteed != [] ==> alphabet != []
    ensures |guaranteed| <= |guaranteedChars|
  {
    alphabet, guaranteed := availableChars, guaranteedChars;
    if excludeChars != [] {
      alphabet := Without(availableChars, excludeChars);
      guaranteed := Without(guaranteedChars, excludeChars);
    }
    if guaranteed != [] {
      assert guaranteed[0] in alphabet;
    }
  }

  /** The tail of `generatePassword` once the alphabet is known to be usable: pad up to
      `length`, shuffle, and rate the result. */
  method Finish(alphabet: string, guaranteed: seq<char>, length: int, d: Draws)
    returns (password: string, strength: Strength)
    requires ValidDraws(length, d) && |guaranteed| <= 4
    requires PadCount(length, |guaranteed|) > 0 ==> alphabet != []
    ensures var count := PadCount(length, |guaranteed|);
            count <= |d.padding|
            && |password| == |guaranteed| + count
            && multiset(password)
               == multiset(guaranteed) + multiset(Padding(alphabet, d.padding, count))
            && strength == Rating(StrengthScore(password))
  {
    password := JoinChars(guaranteed);
    var count := PadCount(length, |password|);
    password := AppendPadding(password, alphabet, d.padding, count);
    password := ShuffleString(password, d.shuffle);
    var score;
    score, strength := CalculateStrength(password);
  }

  /** `generatePassword`. */
  method GeneratePassword(o: Options, excludeChars: string, length: int, d: Draws)
    returns (outcome: Outcome)
    requires ValidDraws(length, d)
    ensures outcome == CharError <==> !AnyChecked(o)
    ensures outcome == UndefinedPadding
        <==> AnyChecked(o) && Kept(Available(o), excludeChars) == [] && length > 0
    ensures outcome.Shown? ==>
              var guaranteed := Kept(Guaranteed(o, d), excludeChars);
              var alphabet := Kept(Available(o), excludeChars);
              var count := PadCount(length, |guaranteed|);
              count <= |d.padding| && (count > 0 ==> alphabet != [])
              && |outcome.password| == |guaranteed| + count
              && multiset(outcome.password)
                 == multiset(guaranteed) + multiset(Padding(alphabet, d.padding, count))
              && outcome.strength == Rating(StrengthScore(outcome.password))
  {
    var availableChars, guaranteedChars := CollectCharSets(o, d);
    if |availableChars| == 0 {
      return CharError;
    }
    assert AnyChecked(o);
    var alphabet, guaranteed := ExcludeChars(availableChars, guaranteedChars, excludeChars);
    var remainingLength := length - |guaranteed|;
    if remainingLength > 0 && alphabet == [] {
      return UndefinedPadding;
    }
    var password, strength := Finish(alphabet, guaranteed, length, d);
    return Shown(password, strength);
  }

  // ---------------------------------------------------------------------------------------
  // Properties

  /** A shown password has length max(length, number of surviving guaranteed characters),
      contains every surviving guaranteed character, and contains no excluded character:
      each of its characters comes from a checked class. */
  lemma ShownPassword(o: Options, excludeChars: string, length: int, d: Draws, password: string)
    requires ValidDraws(length, d)
    requires var guaranteed := Kept(Guaranteed(o, d), excludeChars);
             var alphabet := Kept(Available(o), excludeChars);
             var count := PadCount(length, |guaranteed|);
             count <= |d.padding| && (count > 0 ==> alphabet != [])
             && multiset(password)
                == multiset(guaranteed) + multiset(Padding(alphabet, d.padding, count))
    ensures var guaranteed := Kept(Guaranteed(o, d), excludeChars);
            |password| == (if length > |guaranteed| then length else |guaranteed|)
            && (forall c :: c in guaranteed ==> c in password)
            && (forall c :: c in password ==> c in Available(o) && c !in excludeChars)
  {
    var guaranteed := Kept(Guaranteed(o, d), excludeChars);
    var alphabet := Kept(Available(o), excludeChars);
    var padding := Padding(alphabet, d.padding, PadCount(length, |guaranteed|));
    Combined(guaranteed, padding, password);
    assert forall c :: c in guaranteed ==> c in Available(o) && c !in excludeChars;
    assert forall c :: c in alphabet ==> c in Available(o) && c !in excludeChars;
  }

  /** A rearrangement of `guaranteed + padding` has their joint length and membership. */
  lemma Combined(guaranteed: seq<char>, padding: seq<char>, password: string)
    requires multiset(password) == multiset(guaranteed) + multiset(padding)
    ensures |password| == |guaranteed| + |padding|
    ensures forall c :: c in password <==> c in guaranteed || c in padding
  {
    assert |password| == |multiset(password)| == |guaranteed| + |padding|;
    MultisetMembers(password, guaranteed + padding);
  }

  /** Length credit is cumulative: 0 below 8, 1 from 8, 2 from 12, 3 from 16. */
  lemma LengthCreditSteps(n: nat)
    ensures n < 8 ==> LengthCredit(n) == 0
    ensures 8 <= n < 12 ==> LengthCredit(n) == 1
    ensures 12 <= n < 16 ==> LengthCredit(n) == 2
    ensures 16 <= n ==> LengthCredit(n) == 3
  {
  }

  /** The last credit goes to any character outside [a-zA-Z0-9]: every symbol of `charSets`
      earns it, and so does '~', which is not one of them. */
  lemma OtherCreditBeyondSymbols()
    ensures forall c :: c in Symbols ==> !IsAlphanumeric(c)
    ensures '~' !in Symbols && StrengthScore("~") == 1
  {
    assert '~' in "~" && !IsAlphanumeric('~');
  }

  /** Twelve lowercase letters score 3 (two length points and the lowercase point): Weak. */
  lemma TwelveLowercaseIsWeak()
    ensures StrengthScore("aaaaaaaaaaaa") == 3 && Rating(StrengthScore("aaaaaaaaaaaa")) == Weak
  {
    var p := "aaaaaaaaaaaa";
    assert forall c :: c in p ==> c == 'a';
    assert p[0] in p && IsLower(p[0]);
  }

  /** Sixteen characters from all four classes reach the maximum score 7: Strong. */
  lemma SixteenMixedIsStrong()
    ensures StrengthScore("Ab3!Ab3!Ab3!Ab3!") == 7 && Rating(7) == Strong
  {
    var p := "Ab3!Ab3!Ab3!Ab3!";
    assert p[0] in p && IsUpper(p[0]);
    assert p[1] in p && IsLower(p[1]);
    assert p[2] in p && IsDigit(p[2]);
    assert p[3] in p && !IsAlphanumeric(p[3]);
  }
}
