# Secure password generator — Dafny model

A password generator that follows character-class rules, and a heuristic strength rater,
each implemented both as a Python desktop tool and as a browser script.

- `PasswordGen.dfy` (module `PasswordGen`) models the Python desktop tool:
  - `generate_secure_password` walks the enabled classes (lowercase, uppercase, digits,
    punctuation) and draws one required character from each;
  - it optionally strips the ambiguous set `l1Io0O` from the alphabet and from the
    required list, without redrawing what it drops;
  - it checks for an empty alphabet or required list, then for a length that is too short;
  - it pads with draws from the alphabet and shuffles;
  - `get_password_strength` gives a 0–5 score, shown as Weak, Moderate or Strong!.
- `Script.dfy` (module `Script`) models the browser version:
  - the fixed `charSets`;
  - `generatePassword` walks upper, lower, numbers, symbols, checks for an unchecked form
    *before* exclusion, and filters by a user-supplied exclusion string;
  - there is no length check, so the output can be longer than requested;
  - `getRandomChar`;
  - the in-place Fisher–Yates `shuffleString`, on an `array`;
  - `calculateStrength` gives a 0–7 score, shown as Weak, Medium or Strong.
- `Text.dfy` (module `Text`) holds what both share:
  - the order-preserving filter `Without`, for Python's `str.replace` loop, its
    `not in` loop and JavaScript's `filter(... !excludeChars.includes(char))`;
  - ASCII class tests;
  - reordering a sequence by an index permutation (`Pick`, `IsPermutation`).

Randomness is an explicit input, so each generator is deterministic.

- Python: a `Draws` value holds one index per class for `random.choice`, a list of padding
  indices into the post-exclusion alphabet, and an index permutation `order`.
  - `random.shuffle` belongs to Python's library, whose code is not part of this model. It
    is specified only as "some permutation": `Shuffle` picks the list's elements in the
    order `order` lists them.
  - `ValidDraws` states which indices must be in range for the step that consumes them.
- JavaScript: a `Draws` value holds the reals in [0, 1) that `Math.random()` returns.
  - `RandomIndex` computes `Math.floor(u * n)` from them exactly and proves it lies in [0, n).

The Python generator is an imperative method, `GenerateSecurePassword`, written as a few
step methods:
- the class walk (`CollectClasses`);
- the `replace` loop (`RemoveEach`);
- the required-list filter (`KeepAllowed`);
- the padding draw (`DrawPadding`).

Its contract says it returns exactly `Returned(Generate(...))`. `Generate` is a pure
function, and the lemmas about it state what the generator promises:
- the error order;
- the exact result length;
- the multiset of the output;
- alphabet membership;
- exclusion of ambiguous characters;
- which classes are represented.

The JavaScript generator is an imperative method whose contract states directly:
- the error outcomes;
- the output length;
- the output multiset;
- the strength rating.

The lemma `ShownPassword` derives from these that the output length is
max(length, guaranteed count), that every surviving guaranteed character appears, and that
no character is excluded.

A required character dropped as ambiguous is never redrawn (password_gen.py:34-38), so an
enabled class whose alphabet still has usable characters can be missing from a successful
password. `DroppedClassExample` shows this: lowercase and punctuation are enabled, the length
is 1, the lowercase draw is `'o'`, and the password is `"!"`. `ClassesRepresented` states what
does hold: a class is represented when its *drawn* character survived.

## Model

| member | source | states |
|---|---|---|
| PasswordGen.AlphabetsAsWritten | password_gen.py:14-23 | the lowercase, uppercase and digit alphabets are exactly Python's `string` constants |
| PasswordGen.PunctuationAsWritten | password_gen.py:26-27 | the punctuation alphabet is exactly `string.punctuation` |
| PasswordGen.Shuffle | password_gen.py:48 | reordering by a permutation keeps the length and the multiset of the list |
| PasswordGen.GenerateSecurePassword | password_gen.py:9-50 | the returned message and status are exactly those of the pure function `Generate` for the same request and draws |
| PasswordGen.Candidates | password_gen.py:10-38 | after the class walk and the optional ambiguity filter, the alphabet and required list equal `Alphabet(req)` and `Required(req, d)` |
| PasswordGen.Assemble | password_gen.py:46-48 | once both checks pass, padding and shuffling produce exactly the password of `Generate` |
| PasswordGen.CollectClasses | password_gen.py:10-28 | the walk builds the concatenated enabled alphabets and one drawn character per enabled class, in the order lower, upper, digits, punctuation |
| PasswordGen.RemoveEach | password_gen.py:31-32 | removing each ambiguous character in turn with `replace` is filtering by the whole set |
| PasswordGen.KeepAllowed | password_gen.py:34-38 | the rebuilt required list is the original one without ambiguous characters, order kept |
| PasswordGen.DrawPadding | password_gen.py:46-47 | the padding is `count` draws from the alphabet at the supplied indices, each a character of the alphabet |
| PasswordGen.DrawnFromAlphabets | password_gen.py:13-28 | one drawn character per enabled class, each in the enabled alphabets |
| PasswordGen.RequiredCount | password_gen.py:13-38 | exactly one required character per enabled class without exclusion, at most that many with it |
| PasswordGen.AlphabetEmptyIff | password_gen.py:30-32 | the filtered alphabet is empty exactly when no class is enabled |
| PasswordGen.RequiredInAlphabet | password_gen.py:13-38 | every surviving required character is in the filtered alphabet |
| PasswordGen.NoCharacterTypeIff | password_gen.py:40-41 | the "no character type" error happens exactly when no class is enabled or every drawn character was ambiguous and dropped, whatever the length |
| PasswordGen.LengthTooShortIff | password_gen.py:43-44 | the length error happens exactly when some required character survives and the length is below the required count |
| PasswordGen.SuccessIff | password_gen.py:43-50 | success exactly when neither error applies, and then the password has the requested length |
| PasswordGen.SuccessMultiset | password_gen.py:46-48 | a successful password's multiset is the required characters plus the padding draws; every surviving required character occurs in it |
| PasswordGen.SuccessAlphabet | password_gen.py:13-32 | every character of a successful password is in an enabled alphabet and, with exclusion, not ambiguous |
| PasswordGen.SuccessExcludesAmbiguous | password_gen.py:30-38 | with exclusion, no position of a successful password holds an ambiguous character |
| PasswordGen.ClassesRepresented | password_gen.py:13-48 | each enabled class whose drawn character survived has a character in a successful password |
| PasswordGen.LengthTwoAllClassesTooShort | password_gen.py:43-44 | length 2 with all four classes and no exclusion gives the length error |
| PasswordGen.SixteenAllClassesSucceeds | password_gen.py:46-50 | length 16 with all classes succeeds with 16 characters covering every class |
| PasswordGen.DroppedClassExample | password_gen.py:34-38 | an enabled class with usable characters can be absent from a successful password, because a dropped required character is not redrawn |
| PasswordGen.DroppedClassSetting | password_gen.py:30-38 | in that example the lowercase draw `'o'` is dropped and only `'!'` is required |
| PasswordGen.StrengthScore | password_gen.py:106-111 | the score is at most 5, and it is 5 exactly when the password has length 12 or more and all four classes |
| PasswordGen.GetPasswordStrength | password_gen.py:113-118 | Weak/red exactly for scores up to 2, Moderate/orange exactly for 3–4, Strong!/green exactly for 5 |
| PasswordGen.TwelveLowercaseIsWeak | password_gen.py:105-118 | twelve lowercase letters score 2 and rate Weak |
| PasswordGen.AllClassesTwelveIsStrong | password_gen.py:105-118 | twelve characters with all four classes score 5 and rate Strong! |
| PasswordGen.GeneratedStrong | password_gen.py:9-50 | a password of length 12 or more generated from all four classes without exclusion always rates Strong! |
| Script.CharSetsAsWritten | script.js:2-4 | the letter and digit sets are the literal strings of `charSets` |
| Script.RandomIndex | script.js:93 | `Math.floor(u * n)` lies in [0, n) for every u in [0, 1) |
| Script.GetRandomChar | script.js:92-95 | on a non-empty string the result is one of its characters |
| Script.Guaranteed | script.js:41-56 | every guaranteed character belongs to the checked alphabets |
| Script.Padding | script.js:80-82 | `count` padding characters, each from the alphabet |
| Script.ShuffleString | script.js:97-104 | the in-place Fisher–Yates shuffle returns a permutation of its input: same length, same multiset |
| Script.LengthCredit | script.js:110-112 | the length credit is at most 3 |
| Script.StrengthScore | script.js:108-117 | the score is at most 7 |
| Script.Rating | script.js:122-134 | Weak exactly for scores up to 3, Medium exactly for 4–5, Strong exactly for 6 and above |
| Script.CalculateStrength | script.js:107-134 | the accumulated score equals `StrengthScore` and is at most 7; the label is its `Rating` |
| Script.CollectCharSets | script.js:38-56 | the checkbox walk builds the checked alphabets and one guaranteed character per checked class, in the order upper, lower, numbers, symbols |
| Script.JoinChars | script.js:73-77 | joining the guaranteed characters gives exactly them as a string |
| Script.AppendPadding | script.js:79-82 | the padding loop appends exactly `Padding(alphabet, draws, count)` |
| Script.ExcludeChars | script.js:63-68 | exclusion applies only to a non-empty field; guaranteed characters stay inside the alphabet, and a non-empty guaranteed list leaves a non-empty alphabet |
| Script.Finish | script.js:73-89 | padding up to `length`, shuffling and rating yield the guaranteed characters plus the padding in some order, with their rating |
| Script.GeneratePassword | script.js:35-90 | the class error exactly when nothing is checked; an undefined padding draw exactly when exclusion emptied the alphabet and padding is due; otherwise a password whose multiset is the surviving guaranteed characters plus `max(0, length - guaranteed)` padding draws, rated by `calculateStrength` |
| Script.ShownPassword | script.js:63-84 | a shown password has length max(length, surviving guaranteed count), contains every surviving guaranteed character, and contains only characters of checked classes that are not excluded |
| Script.Combined | script.js:84 | a rearrangement of guaranteed plus padding characters has their joint length and exactly their members |
| Script.LengthCreditSteps | script.js:110-112 | the length credit is cumulative: 0 below 8, 1 from 8, 2 from 12, 3 from 16 |
| Script.OtherCreditBeyondSymbols | script.js:117 | every symbol of `charSets` earns the last credit, and so does `'~'`, which is not one of them |
| Script.TwelveLowercaseIsWeak | script.js:107-134 | twelve lowercase letters score 3 and rate Weak |
| Script.SixteenMixedIsStrong | script.js:107-134 | sixteen characters with all four classes reach the maximum score 7 and rate Strong |
| Text.Without | password_gen.py:30-38 | the filtered string is no longer than the input and holds exactly the input's characters that are not excluded |
| Text.WithoutOneMore | password_gen.py:31-32 | one more `replace` on a filtered string is filtering by the extended exclusion set |
| Text.WithoutAppend | password_gen.py:34-38 | filtering distributes over concatenation |
| Text.PermutedMultiset | password_gen.py:48 | reordering by a permutation of the positions keeps the multiset |

## Left out

- The tkinter window, its event handlers and the clipboard (password_gen.py:52-171): UI plumbing. Its "no class selected" pre-check duplicates the generator's own empty-alphabet check (password_gen.py:40-41).
- The DOM lookups, event listeners, clipboard, toast timer and debounce (script.js:8-33, 138-185): UI, asynchronous and timing code. Line 27's `e.parseInt` is a UI defect outside the generator.
- The DOM updates inside `generatePassword` and `calculateStrength` (hiding and showing the class error, the text and the CSS classes): presentation. The model returns the outcome and the `Strength` label instead.
- The distribution of `random.choice`, `random.shuffle` and `Math.random()`: these are library calls and are replaced by supplied draws. Floating-point rounding of `Math.random() * n` is left out; the product is an exact real.
- `random.shuffle` itself: its code is not part of this model. It is specified only as some permutation, supplied as `order`.
- `Number.parseInt` of the slider value: the model takes the length as an integer, so a `NaN` length is not modelled.
- Script.GeneratePassword: when exclusion has emptied the alphabet and padding is still due, the source appends the text `undefined` once per padding step. The model returns the explicit outcome `UndefinedPadding` instead of reproducing that string coercion.
- Unicode: Python's `islower`, `isupper` and `isdigit` are modelled as ASCII class tests. The JavaScript character classes are ASCII already.
- Python's and JavaScript's string immutability and the `list`/`join` conversions: they are modelled as sequence values.
