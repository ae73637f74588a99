# Input resolution of a CI worker toolkit, in Dafny

A host process hands a worker its named inputs as environment variables. The
toolkit's `GetInput` turns one input into a string in four steps:

1. **Key normalisation.** Every space of the display name becomes `_`. The
   result is upper-cased with `strings.ToTitle`. `INPUT_` is put in front.
2. **Option defaulting.** The options record has two tri-state fields (nil, true
   or false). An unset `Required` becomes false and an unset `TrimWhitespace`
   becomes true. Set fields are kept. A nil record behaves like an all-unset one.
3. **Lookup.** The key is read from the environment. A missing key reads as `""`.
4. **Policy.** A required input whose raw value is `""` is an error that names the
   input. Otherwise the value is trimmed with `strings.TrimSpace`, or returned
   as it is when trimming is off.

The project has five modules:

- `Wrappers` (wrappers.dfy): `Option` stands for a nilable pointer and `Result`
  for Go's `(value, error)` pair.
- `Strings` (strings.dfy): the three `strings` functions the core calls, on
  ASCII. It also gives a reference meaning of trimming (`TrimmedAt`) and proves
  that `TrimSpace` is the only string with that meaning.
- `Options` (options.dfy): `InputOptions`, the default fill `Init` and
  `initializeInputOptions` as `Initialize`.
- `Core` (core.dfy): the key `EnvKey`, the lookup, `GetInput`, and the lemmas
  about them.
- `CoreExamples` (core_examples.dfy): the rows of the table test of `GetInput`.

The environment is a parameter of type `map<string, string>`. The model is pure
and reads nothing else.

The required check runs on the raw value whatever the trim setting
(core/core.go:47). So a required whitespace-only input also passes with trimming
on, and it reads as `""` with no error (`Core.GetInputRequiredBlank`).

## Model

| member | source | states |
|---|---|---|
| Strings.Upper | core/core.go:45 | Title case of one character. Only 'a'..'z' change, each moving to its capital; every other character is kept. No result is lower case. |
| Strings.ReplaceAll | core/core.go:45 | `strings.ReplaceAll` with a one-character pattern. The length is kept. Each occurrence of the pattern becomes the replacement and every other character stays in place. The pattern does not occur in the result. |
| Strings.ReplaceAllAbsent | core/core.go:45 | Replacing a character that does not occur leaves the string unchanged. |
| Strings.ToTitle | core/core.go:45 | `strings.ToTitle`. The length is kept and each character is replaced by its title case. No lower-case letter remains. |
| Strings.ToTitleFixesUpper | core/core.go:45 | A string with no lower-case letter is its own title case, so ToTitle is idempotent. |
| Strings.TrimLeft | core/core.go:53 | The result is a suffix of the input. Everything dropped is white space, and a non-empty result does not start with white space. |
| Strings.TrimRight | core/core.go:53 | The result is a prefix of the input. Everything dropped is white space, and a non-empty result does not end with white space. |
| Strings.TrimSpace | core/core.go:53 | `strings.TrimSpace`. The result is no longer than the input and has no white space at either end. It is a slice of the input with only white space before and after it (`TrimmedAt`). |
| Strings.TrimmedAtUnique | core/core.go:53 | At most one string is a trimming of a given string, whatever slice position is claimed. |
| Strings.TrimSpaceIsTrimming | core/core.go:53 | Any string that meets the reference meaning of trimming equals `TrimSpace` of the input. |
| Strings.TrimSpaceIdempotent | core/core.go:53 | Trimming a trimmed string changes nothing. |
| Strings.TrimSpaceAllSpace | core/core.go:53 | A string of white space only, the empty string included, trims to `""`. |
| Options.Init | core/core.go:31-38 | After the fill both fields are set. A set field keeps its value. An unset `Required` becomes false and an unset `TrimWhitespace` becomes true. |
| Options.Initialize | core/core.go:22-28 | A nil record yields `Required` false and `TrimWhitespace` true. A record yields its default fill. Either way the result is fully set. |
| Options.InitFixedPoint | core/core.go:31-38 | The fill leaves a record unchanged if and only if both its fields are already set. |
| Options.InitIdempotent | core/core.go:31-38 | Filling a record that `init` has already filled changes nothing. |
| Options.NilIsUnset | core/core.go:23-25 | A nil options record is initialised exactly like `&InputOptions{}`. |
| Options.InitializeIdempotent | core/core.go:22-28 | Passing an already initialised record back gives the same record. |
| Core.EnvKey | core/core.go:45 | The key is `INPUT_` followed by one character per name character. A space becomes `_` and a lower-case letter its capital. Every other character, such as tab, quote or backslash, is kept. The key has no space. |
| Core.EnvKeyUnique | core/core.go:45 | The properties `EnvKey` ensures determine the key completely. |
| Core.EnvKeyAppend | core/core.go:45 | The key of a concatenation is the key of the first part followed by the key body of the second. |
| Core.EnvKeyInjectiveUpToCase | core/core.go:45 | Two names have the same key if and only if they agree character by character once letters are upper-cased and spaces read as underscores. |
| Core.EnvKeyIgnoresCase | core/core.go:45 | Names that differ only in letter case have the same key. |
| Core.EnvKeyIdempotent | core/core.go:45 | Normalising the part of a key after `INPUT_` again gives the same key. |
| Core.Lookup | core/core.go:46 | `os.Getenv` over the map. A set key gives its value and a missing key gives `""`. |
| Core.GetInput | core/core.go:43-54 | The read fails if and only if the caller marked the input required and the raw value is `""`. The error names the input as the caller spelt it. With trimming off the value is the raw value. Otherwise it is the trimming of the raw value. An unset field means not required and trimming on. |
| Core.GetInputByOptions | core/core.go:44-53 | `GetInput` in terms of the caller's own options record and the raw value. Defaulting is folded into the two tests. |
| Core.GetInputRequiredMissing | core/core.go:47-49 | A required input whose key is missing or empty is the error `RequiredInputMissing(name)`. |
| Core.GetInputRequiredBlank | core/core.go:47-53 | The required check sees the raw value. A required whitespace-only input passes it. It reads as `""` with trimming on and as the raw value with trimming off. |
| Core.GetInputOptionalMissing | core/core.go:46-53 | An input that is not required and whose key is missing reads as `""` without error. |
| Core.GetInputTrimmed | core/core.go:50-53 | With trimming on, a successful value equals `TrimSpace` of the raw value. It has no white space at either end, is a contiguous slice of the raw value, and is its own trimming. |
| Core.GetInputIgnoresNameCase | core/core.go:45-46 | Names differing only in case both succeed or both fail, and succeed with the same value. |
| Core.GetInputSharedOptions | core/core.go:22-28 | Passing back the record an earlier read filled, unchanged, gives the same result as the original record. |
| CoreExamples.KeyMyInput | core/core_test.go:51 | The key of "my input" is `INPUT_MY_INPUT`. |
| CoreExamples.KeyMixedCase | core/core_test.go:67 | The key of "My InPuT" is also `INPUT_MY_INPUT`. |
| CoreExamples.KeyMissing | core/core_test.go:52 | The key of "missing" is `INPUT_MISSING`. |
| CoreExamples.KeySpecialChars | core/core_test.go:53 | The key of `special chars_'\t"\\` is `INPUT_SPECIAL_CHARS_'\t"\\`: tab, quote and backslash pass through. |
| CoreExamples.KeyMultipleSpaces | core/core_test.go:54 | The key of "multiple spaces variable" is `INPUT_MULTIPLE_SPACES_VARIABLE`. |
| CoreExamples.KeyTrailingWhitespace | core/core_test.go:55 | The key of "with trailing whitespace" is `INPUT_WITH_TRAILING_WHITESPACE`. |
| CoreExamples.EnvMyInput | core/core_test.go:51 | The test's environment holds "val" under `INPUT_MY_INPUT`. |
| CoreExamples.EnvMissing | core/core_test.go:52 | The test's environment holds `""` under `INPUT_MISSING`. |
| CoreExamples.EnvSpecialChars | core/core_test.go:53 | The test's environment holds `'\t"\\ response ` under the special-characters key. |
| CoreExamples.EnvMultipleSpaces | core/core_test.go:54 | The test's environment holds "I have multiple spaces" under `INPUT_MULTIPLE_SPACES_VARIABLE`. |
| CoreExamples.EnvTrailingWhitespace | core/core_test.go:55 | The test's environment holds `"  some val  "` under `INPUT_WITH_TRAILING_WHITESPACE`. |
| CoreExamples.TrimVal | core/core_test.go:63 | "val" trims to itself. |
| CoreExamples.TrimEmpty | core/core_test.go:66 | "" trims to itself. |
| CoreExamples.TrimSpecialChars | core/core_test.go:68 | Tab, quote and backslash are kept and only the trailing space goes. |
| CoreExamples.TrimMultipleSpaces | core/core_test.go:69 | Inner spaces are kept. |
| CoreExamples.TrimSomeVal | core/core_test.go:70 | `"  some val  "` trims to `"some val"`. |
| CoreExamples.RowsMyInput | core/core_test.go:63-65 | A name whose key holds "val" reads "val" with a nil record, an empty record and `Required` true. |
| CoreExamples.RowMissing | core/core_test.go:66 | A name whose key is empty or missing reads `""` when `Required` is false. |
| CoreExamples.RowMissingRequired | core/core.go:47-49 | The same name with `Required` true is the error naming it. |
| CoreExamples.RowSpecialChars | core/core_test.go:68 | A name whose key holds `'\t"\\ response ` reads `'\t"\\ response` by default. |
| CoreExamples.RowMultipleSpaces | core/core_test.go:69 | A name whose key holds "I have multiple spaces" reads it unchanged. |
| CoreExamples.RowsTrailingWhitespace | core/core_test.go:70-72 | `"  some val  "` reads as `"some val"` by default and with trimming set. It reads unchanged with trimming off. |
| CoreExamples.TestGetInputTable | core/core_test.go:49-72 | In the test's five-key environment, all ten rows of the table give the expected values with no error. |

## Left out

- `sync.Once` and the in-place fill of the options record (core/core.go:19, 26, 33, 36). The model's fill is a pure function that returns a new record. Three things are not modelled:
  - the caller's own record is left filled after `GetInput`;
  - `init` never runs a second time on a record. If the caller sets a field back to nil after a first read and reuses the record, the next read dereferences nil at core/core.go:47 or 50 and panics. The model fills in the default again instead;
  - thread interleavings.
- `os.Getenv` (core/core.go:46): the environment is an explicit `map<string, string>` parameter, and each call reads the map it is given. Keys are matched exactly, as on Unix. The case-insensitive lookup of Windows is not modelled.
- Full Unicode behaviour of `strings.ToTitle` and `strings.TrimSpace`. These are foreign library calls. The model is ASCII only: 'a'..'z' map to 'A'..'Z', and white space is space, tab, line feed, vertical tab, form feed and carriage return. Non-ASCII letters and Unicode spaces such as U+0085 and U+00A0 are treated as ordinary characters.
- Go strings are byte sequences; here a string is a sequence of `char`. Nothing in the modelled code depends on the difference for ASCII.
- The text of the error message built by `fmt.Errorf` (core/core.go:48). The error is the datatype `RequiredInputMissing(name)`, which carries the same name.
- Core.GetInput: on failure the Go function also returns the looked-up value, which is always `""` at that point. The model's `Failure` carries only the error.
- The `ptr` helper package is not part of this model. Its pointers to booleans are `Option<bool>`.
- `GetMultilineInput` (called at core/core_test.go:100) and any boolean reader. Their definitions are not part of this model, so their behaviour is not invented.
