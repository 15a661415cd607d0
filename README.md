# conv: Cyrillic code pages to Unicode, modelled in Dafny

`conv` (HW01/conv.c) converts a file written in KOI8-R, Windows-1251 or
ISO/IEC 8859-5 into Unicode. `parseArgs` picks the code page from its `-c`
argument. The name is compared case-insensitively, after `toLower` has
rewritten it in place, and then stored as one of the canonical names
`koi8-r`, `cp-1251` or `iso8859-5`. `convertIt` then reads the input one
byte at a time. It switches on the first letter of the stored name and
hands one wide character per byte to `fputwc`:

- KOI8-R: bytes 192..255, 163 and 179 are looked up in the 255-entry
  `koi8map` table at index `ch-1`.
- ISO/IEC 8859-5: bytes 176..239 become `ch+864`, 161 becomes U+0401 and
  241 becomes U+0451.
- Windows-1251: bytes 192..255 become `ch+848`, 168 becomes U+0401 and
  184 becomes U+0451.
- Every other byte is written unchanged.

The project has four modules:

- `Wrappers` (wrappers.dfy): `Option`, for the NULL pointers of the C code.
- `CodePages` (codepages.dfy): the code pages and the table, copied line for
  line. It has the per-page rules (`KoiMap`, `IsoMap`, `CpMap`, `Map`) and an
  encoder in the other direction (`Unmap`). Its lemmas check the table
  entry by entry and prove that each page's mapping is injective.
- `Convert` (convert.dfy): the switch (`ConvertByte`) and the read/write
  loop (`ConvertIt`). The loop is proved against `Transcode`, which
  gives one codepoint per byte, in input order. Lemmas show that the
  conversion composes over pieces of input, keeps ASCII, and loses nothing.
- `Args` (args.dfy): `toLower` over a NUL-terminated `char` array, the name
  check and canonicalisation of `-c`, and the `runArgs` record as a class
  whose `ParseArgs` method works through the options getopt returns.

The input file is the sequence of bytes that `fgetc` returns before EOF.
The output is the sequence of codepoints handed to `fputwc`.

Two facts about the table, which the model keeps as written:

- The table maps 0xA3 to U+0401 (Ё) and 0xB3 to U+0451 (ё). RFC 1489
  assigns these the other way round.
- 0xC1 is read from `koi8map[192]`, which is 1072 (U+0430, "а"), as KOI8-R
  has it.

## Model

| member | source | states |
|---|---|---|
| CodePages.KoiIndex | HW01/conv.c:162-163 | a byte that reads the table uses index `ch-1`, which lies in 162..254 and so inside the table, which has exactly 255 entries; the index is 162 exactly for byte 163 and 178 exactly for byte 179 |
| CodePages.KoiTableLine49 | HW01/conv.c:49 | the letter entries on this line are basic Cyrillic letters, inverted by the encoder table both ways, with lower-case byte b and b+32 one case apart |
| CodePages.KoiTableLine50 | HW01/conv.c:50 | the same facts for the entries on this line |
| CodePages.KoiTableLine51 | HW01/conv.c:51 | the same facts for the entries on this line |
| CodePages.KoiTableLine52 | HW01/conv.c:52 | the same facts for the entries on this line |
| CodePages.KoiTableLine53 | HW01/conv.c:53 | the same facts for the entries on this line |
| CodePages.KoiLetterTable | HW01/conv.c:49-53 | all 64 letter entries (bytes 192..255) satisfy those facts |
| CodePages.KoiLetterBlock | HW01/conv.c:162-163 | under KOI8-R every byte 192..255 becomes a letter of U+0410..U+044F, and the encoder table gives the byte back |
| CodePages.KoiLettersCovered | HW01/conv.c:49-53 | every letter U+0410..U+044F is produced by a byte in 192..255 |
| CodePages.KoiLettersDistinct | HW01/conv.c:49-53 | two different bytes in 192..255 give two different letters |
| CodePages.KoiLetterImage | HW01/conv.c:49-53 | a codepoint is in U+0410..U+044F if and only if some byte in 192..255 maps to it |
| CodePages.KoiCaseOffset | HW01/conv.c:49-53 | for b in 192..223, byte b+32 gives the codepoint of b minus 32 (the same letter in the other case) |
| CodePages.KoiSpecialBytes | HW01/conv.c:48 | byte 163 reads index 162 and gives U+0401; byte 179 reads index 178 and gives U+0451 |
| CodePages.KoiExamples | HW01/conv.c:49-53 | 0xC0 gives U+044E, 0xC1 gives U+0430, 0xE1 gives U+0410, 0xFF gives U+042A |
| CodePages.IsoRules | HW01/conv.c:167-174 | ISO 8859-5: 176..239 become b+864, in U+0410..U+044F; 161 becomes U+0401; 241 becomes U+0451; every other byte is unchanged |
| CodePages.CpRules | HW01/conv.c:177-184 | Windows-1251: 192..255 become b+848, in U+0410..U+044F; 168 becomes U+0401; 184 becomes U+0451; every other byte is unchanged |
| CodePages.ChangesExactlyOverrides | HW01/conv.c:158-184 | under every page a byte changes value if and only if the page's ranges or special bytes name it; a changed byte becomes Ё, ё or a letter of U+0410..U+044F |
| CodePages.IdentityDefault | HW01/conv.c:158-184 | bytes 0..127 are unchanged under every page; under KOI8-R so are 128..191 other than 163 and 179 |
| CodePages.MapRange | HW01/conv.c:158-184 | every result is the byte itself or lies in U+0401..U+0451 |
| CodePages.MapRoundTrip | HW01/conv.c:158-184 | encoding the codepoint of any byte back into the same page gives that byte |
| CodePages.UnmapSound | HW01/conv.c:158-184 | a byte the encoder returns for a codepoint maps to that codepoint |
| CodePages.MapInjective | HW01/conv.c:158-184 | no two bytes of one page map to the same codepoint |
| Convert.SwitchSelectsPage | HW01/conv.c:159-185 | the first letter of each canonical name selects that page's case of the switch |
| Convert.SelectorsDistinct | HW01/conv.c:27-29 | the three canonical names start with different letters, so each selects exactly one case |
| Convert.Transcode | HW01/conv.c:157-188 | the output has one codepoint per input byte, and position i holds the switch's value for byte i |
| Convert.ConvertIt | HW01/conv.c:151-189 | the loop's output is exactly `Transcode` of the whole input under the name's first letter |
| Convert.TranscodeAppend | HW01/conv.c:157-188 | converting a + b writes the output for a followed by the output for b |
| Convert.TranscodePrefix | HW01/conv.c:157-188 | after k bytes the output is the conversion of the first k bytes: nothing is skipped or reordered |
| Convert.TranscodeAscii | HW01/conv.c:158-185 | an all-ASCII input is written back unchanged, whatever the selector |
| Convert.TranscodeRange | HW01/conv.c:158-185 | each written codepoint is its input byte or lies in U+0401..U+0451 |
| Convert.TranscodeLossless | HW01/conv.c:157-188 | encoding the output of a canonical page back into that page gives the input again |
| Args.CLength | HW01/conv.c:213 | the loop bound of `toLower`: the first NUL of the buffer, with no NUL before it |
| Args.ToLower | HW01/conv.c:212-215 | the buffer afterwards is the old buffer with every character before the first NUL lowered and the rest untouched |
| Args.LowerCStringChanges | HW01/conv.c:212-215 | `toLower` keeps the buffer's length and the position of its NUL, and changes only 'A'..'Z' before the NUL, each by +32 |
| Args.LowerIdempotent | HW01/conv.c:92 | lowering twice is lowering once, so the repeated `toLower(optarg)` calls agree |
| Args.SelectIff | HW01/conv.c:92-96 | a name selects page cp if and only if its lower-case form is cp's canonical name |
| Args.CheckCanonical | HW01/conv.c:92-96 | the three `strcmp` tests all fail exactly when the name is rejected, and otherwise the stored pointer is the canonical name of the selected page |
| Args.SelectRejects | HW01/conv.c:92-95 | a name is rejected if and only if its lower-case form is none of the three canonical names |
| Args.SelectIgnoresCase | HW01/conv.c:92 | the name check gives the same answer for a name and its lower-case form |
| Args.SelectExamples | HW01/conv.c:92-96 | "KOI8-R", "Cp-1251" and "ISO8859-5" are accepted; "koi8r" and "iso-8859-5" are rejected |
| Args.FirstStop | HW01/conv.c:88-116 | the first option the loop does not go past: every earlier one is an accepted -c, -i or -o, and the option at that index is not |
| Args.LastArg | HW01/conv.c:96-106 | a result is the argument of an option with that letter after which no option has that letter (the one the overwriting assignments keep); it is None only if no option has that letter |
| Args.StoredCodePage | HW01/conv.c:96 | after accepted options, codePage holds the canonical name of the page the last -c selects, or NULL if there was no -c |
| Args.RunArgs.constructor | HW01/conv.c:66 | a new record has all three fields NULL |
| Args.RunArgs.ParseArgs | HW01/conv.c:77-126 | argc 1 stops with NoArguments. Otherwise the first rejected option stops the parse: a bad -c gives UnknownCodePage with the lowered name, -h gives HelpRequested, anything else gives BadOption. A missing -c, -i or -o after the loop gives NotEnoughParams. The fields hold the last value of each option before the stop, and a Proceed outcome leaves codePage holding a canonical name |

## Left out

- UTF-8 encoding: `fputwc` under `setlocale(LC_ALL, "ru_RU.utf8")` writes the bytes, in libc. The model ends at the codepoint sequence. The unchecked `fputwc` result and any output length in bytes are not modelled.
- File I/O: `openFiles`, `closeFiles` and `main` are not modelled. Neither is the undersized `malloc` in `openFiles`, which has no room for the NUL. (There the `* sizeof(char)` binds only to the else arm of `?:`, but as `sizeof(char)` is 1 both readings give the longer name's length.) A read error in `fgetc` ends the loop like EOF, so the input is simply the bytes read.
- getopt is outside the model. `ParseArgs` is given argc and the options getopt would return, in order. Each argument is given by its contents, so the `strcmp` comparisons are comparisons of those contents.
- Args.RunArgs.ParseArgs: works on the value of each `-c` argument and does not rewrite the argv buffer in place. The in-place rewrite is `ToLower`. Only its effect, the lowered name in the error message, is kept.
- `exitWithMessage`, `printUsage` and `printRunArgs`: console output and process exit. The outcome names why the program stops, not its exit status. `exitWithMessage` inverts the status: an error exits with success and a run without arguments exits with failure.
- Negative `char` values: `LowerChar` follows `tolower` in the "C" locale. It does not model the undefined behaviour of passing a negative `char`, which happens for bytes 0x80 and above on platforms where `char` is signed.
- The FILE handles in `runArgs` are not fields of `RunArgs`.
