# Random string generator

A model of the random string generator page of the LinguaCraft creative suite
(`src/pages/Randomizer.tsx`). The model keeps six of the page's seven pieces of state: the requested
length (16 at start), four switches choosing the character classes (uppercase,
lowercase and digits on, symbols off) and the last generated string. Its
generate action builds a charset by appending the enabled class strings in the
fixed order uppercase, lowercase, digits, symbols; refuses an empty charset with
an error toast; fills a `Uint32Array` of `length` words from the browser's
secure random source (which throws a `QuotaExceededError` for a buffer over
65536 bytes, that is a length over 16384); and maps word `i` to `charset[word % charsetLength]`,
appending the characters into the new string, which replaces the stored one.
Next to the length slider the page shows a strength label that depends on the
length alone.

Files:

- `charset.dfy` (module `CharacterSets`): the four class strings, the charset
  as a function of the switches (`Alphabet`), the step-by-step builder
  (`BuildCharset`), and the facts that the charset has no repeated character and
  holds exactly the characters of the enabled classes.
- `sampling.dfy` (module `Sampling`): 32-bit words, the index a word selects,
  the string a buffer of words renders to (`Render`), the mapping loop
  (`MapWords`) and the per-position and concatenation lemmas.
- `randomizer.dfy` (module `RandomizerPage`): the page state as class
  `Randomizer`, its `GenerateRandomString` method, the error toast, the stand-in
  for `crypto.getRandomValues` with its byte quota, and the strength label.

The random source is an input: `GenerateRandomString` takes the sequence of
words the entropy source hands out for a buffer of `length` words, so the model
is deterministic and every claim is about all possible word sequences.

## Model

| member | source | states |
|---|---|---|
| CharacterSets.Alphabet | src/pages/Randomizer.tsx:21-25 | the charset has 26, 26, 10 and 26 characters per enabled class (at most 88) and is empty exactly when all four switches are off |
| CharacterSets.BuildCharset | src/pages/Randomizer.tsx:21-25 | appending the enabled classes one by one to `''` yields the uppercase, lowercase, digit, symbol concatenation, whatever switches are on |
| CharacterSets.ClassMembers | src/pages/Randomizer.tsx:22-24 | the uppercase, lowercase and digit strings hold exactly the characters `A`-`Z`, `a`-`z` and `0`-`9` |
| CharacterSets.ClassesDistinct | src/pages/Randomizer.tsx:22-25 | no class string repeats a character and no two class strings share one |
| CharacterSets.AlphabetNoDuplicates | src/pages/Randomizer.tsx:21-25 | for every combination of switches the charset lists no character twice |
| CharacterSets.AlphabetMembers | src/pages/Randomizer.tsx:21-25 | a character is in the charset if and only if its class's switch is on |
| Sampling.CharIndex | src/pages/Randomizer.tsx:37-42 | `word % charsetLength` is a valid index into a non-empty charset, and a word below the charset length selects itself |
| Sampling.Render | src/pages/Randomizer.tsx:41-43 | the rendered string has one character per word of the buffer |
| Sampling.RenderAt | src/pages/Randomizer.tsx:41-43 | character `i` of the result is `charset[words[i] % charsetLength]`, so it depends on word `i` alone |
| Sampling.RenderInCharset | src/pages/Randomizer.tsx:42 | every character of the result is a member of the charset |
| Sampling.RenderAppend | src/pages/Randomizer.tsx:41-43 | rendering a buffer split in two is rendering each part and concatenating, so no position influences another |
| Sampling.MapWords | src/pages/Randomizer.tsx:36-43 | the loop that appends `charset[randomValues[i] % charsetLength]` for each `i` returns exactly the rendered string of the whole buffer |
| RandomizerPage.GetRandomValues | src/pages/Randomizer.tsx:38-39 | a buffer of at most 65536 bytes is filled in place with exactly the words the entropy source supplies; a larger one raises `QuotaExceededError` and is left untouched |
| RandomizerPage.Randomizer.constructor | src/pages/Randomizer.tsx:11-16 | initial state: length 16, uppercase, lowercase and digits on, symbols off, empty stored string |
| RandomizerPage.Randomizer.GenerateRandomString | src/pages/Randomizer.tsx:20-46 | with every switch off: the error toast; with a charset but a length over 16384: the `QuotaExceededError` thrown by the entropy call; in both cases the stored string unchanged; otherwise the stored string becomes the rendering of the words, of exactly `length` characters (so `''` for length 0), character `i` being `charset[word_i % charsetLength]`, every character in the charset; only the stored string is modified |
| RandomizerPage.StrengthOf | src/pages/Randomizer.tsx:132 | total in the length: Weak exactly below 8, Medium exactly from 8 to 15, Strong exactly from 16; `Strength.Label` gives the text displayed for each (`Weak`, `Medium`, `Strong`) |
| RandomizerPage.StrengthMonotone | src/pages/Randomizer.tsx:132 | a longer length never gets a weaker label |

## Left out

- `crypto.getRandomValues` is foreign: it is replaced by an input sequence of 32-bit words; nothing about randomness, uniformity or the modulo bias of `word % charsetLength` (which favours low indices when the charset length does not divide 2^32) can be stated as a contract, and none is.
- RandomizerPage.Randomizer.GenerateRandomString: the toast is returned as a value rather than shown; the `useCallback` memoisation and the `useEffect` that regenerates on every change of length or switch are React plumbing and are not modelled.
- RandomizerPage.Randomizer: `length` is a `nat`, so two behaviours of non-natural lengths are not represented: a negative length makes the `Uint32Array` constructor throw, and a fractional one is truncated by that constructor, after which the loop runs one step past the buffer, reads `undefined` and appends the text `undefined`. Neither can occur, since the slider moves in steps of 1 within 4..64.
- Clipboard copy, the "Copied" flag and its `setTimeout` reset are asynchronous browser I/O.
- The sliders, switches and the rest of the JSX are presentation; the setters are modelled as direct assignments to the class fields.
- `src/pages/Translator.tsx`, `src/pages/Home.tsx`, `src/pages/About.tsx`, `src/components/Navbar.tsx` and `src/components/Footer.tsx` are not part of this model: an HTTP pass-through and static markup.
