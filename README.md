# Lox scanner model

This project models, in Dafny, the scanner of a Python Lox interpreter whose only command is `tokenize`. It covers two parts.

- **Token kinds and tokens** (`app/token.py`). The 39-member `TokenType` enumeration becomes a datatype. The `Token` record becomes a datatype built by `NewToken`, which replaces an absent literal with the string `"null"`. A token's printed form is `<KIND NAME> <lexeme> <literal>`.
- **The scanner** (`app/scanner.py`). This is a `Scanner` class whose methods update its fields in place:
  - the cursors `start` and `current`;
  - the token list;
  - the sticky `error` flag;
  - the list of error reports, `diagnostics`.

  The class also has a `line` field, which the constructor sets to 1 and nothing changes afterwards.

  `scan_tokens` makes one pass from left to right. Each `scan_token` call consumes one step:
  - a punctuation character;
  - one of `=`, `!`, `<`, `>`, followed by `=` when one is there;
  - a slash, or a `//` comment up to the next newline;
  - any other character, which is reported as an unexpected character.

  After the loop, one `EOF` token is appended.

The project has four files.

- `wrappers.dfy` holds `Option`.
- `tokens.dfy` (module `Tokens`) holds the token kinds, the `Token` record, its rendering, and the proof that the rendering can be parsed back.
- `scan_spec.dfy` (module `ScanSpec`) is a functional reference for the scanner:
  - `ScanStep` is one `scan_token` call started at an offset;
  - `TokensFrom`, `DiagnosticsFrom` and `StepStarts` follow the main loop to the end of the text;
  - `ScanAll` adds the `EOF` token.

  The lemmas about the whole scan are stated against these functions.
- `scanner.dfy` (module `Scanning`) holds the `Scanner` class.
  - `Match`, `SkipComment`, `AddOneOrTwo`, `SlashOrComment`, `ScanToken` and `ScanTokens`, and the top-level `Scan`, are stated against the `ScanSpec` functions. `ScanToken` is proved to perform exactly the step `ScanStep`, and `ScanTokens` exactly the loop `TokensFrom`/`DiagnosticsFrom`.
  - `IsAtEnd`, `Advance`, `Peek`, `AddToken`, `Report`, `ErrorMessage` and `GetTokens` are stated directly over the class's own fields.

An error report that the source prints to standard error is modelled as a structured `Diagnostic(line, where, message)`. It is appended to a `diagnostics` field. The class invariant `Valid()` states three things:
- the cursors satisfy `start <= current <= |source|`;
- `line` stays 1;
- `error` is set exactly when a report has been made.

The model follows the code as written, including where it departs from the evident intent of the case at `app/scanner.py:103`, and from what a complete Lox scanner would do:

- **Whitespace is an error.** The case meant to skip space, carriage return and tab (`app/scanner.py:103`) is a sequence pattern. A sequence pattern never matches a one-character string. So these characters, and the newline, which has no case at all, reach the "Unexpected character" case. Each one produces a report and no token.
- **No line counting.** Nothing changes `line` after the constructor. Every token and every report is on line 1, including a `+` that follows a comment and a newline.
- **Punctuation and operators only.** The scanner has no string, number, identifier or keyword scanning. Those token kinds exist only in the enumeration.

## Model

| member | source | states |
|---|---|---|
| Tokens.IndexIsBijection | app/token.py:6-55 | Declaration order numbers the 39 kinds 0..38 one-to-one, so the members are pairwise distinct |
| Tokens.GroupsAreIndexRanges | app/token.py:9-55 | The kinds come in consecutive runs: 11 single-character, 8 one-or-two-character, 3 literal and 16 keyword kinds, then `EOF` |
| Tokens.NameRoundTrip | app/token.py:69-70 | Each kind's printed name maps back to that kind, so no two kinds print alike |
| Tokens.NameHasNoSpace | app/token.py:69-70 | No printed kind name contains a space |
| Tokens.NewToken | app/token.py:61-67 | The kind, lexeme and line are stored unchanged; an absent literal is stored as "null" and a present one unchanged |
| Tokens.NullLiteralIsConflated | app/token.py:66 | A token built with no literal stores the same fields as one built with the literal "null", and different fields from one built with any other literal |
| Tokens.Repr | app/token.py:72-73 | `repr` of a token is its `str` rendering, so when the lexeme has no space the kind, lexeme and literal parse back from it |
| Tokens.RenderRoundTrip | app/token.py:69-70 | When the lexeme has no space, the rendering `name lexeme literal` parses back to kind, lexeme and literal |
| Tokens.EofRendering | app/token.py:69-70 | The end-of-input token renders as `EOF  null` |
| ScanSpec.CommentEnd | app/scanner.py:99-100 | The comment loop stops at the first newline at or after its start, or at the end of the text, without passing a newline |
| ScanSpec.ScanStep | app/scanner.py:49-106 | Each `scan_token` call consumes at least one character and stays within the text |
| ScanSpec.StepEmits | app/scanner.py:53-102 | An emitted token's lexeme is the fixed spelling of its kind; a bare `!`, `=`, `<` or `>` is never followed by `=`, and a slash token never by `/` |
| ScanSpec.StepSkipsComment | app/scanner.py:97-100 | A step skips a comment exactly when it starts at `//`, and it ends at the next newline or at the end of the text |
| ScanSpec.StepReportsUnhandled | app/scanner.py:103-106 | A step reports an error exactly when its character has no case, and then it consumes only that character |
| ScanSpec.StepStarts | app/scanner.py:44-46 | The offsets at which the loop calls `scan_token` strictly increase, lie inside the text, and start at the loop's first offset |
| ScanSpec.LoopTurn | app/scanner.py:44-46 | One loop turn preserves "what is appended so far, plus what the rest of the loop appends" |
| ScanSpec.FinalStartIsLastStep | app/scanner.py:45 | After the loop, `start` is the offset of the last `scan_token` call, or is unchanged if there was none |
| ScanSpec.SpellingShape | app/scanner.py:53-102 | The spelled kinds are not `EOF`, and their spellings are one or two characters long with no space |
| ScanSpec.TokensWellFormed | app/scanner.py:37-40 | Every token the loop appends has line 1 and literal "null"; it is not `EOF`; its lexeme is the one- or two-character spelling of its kind |
| ScanSpec.ScanAllEndsWithEof | app/scanner.py:42-47 | A complete scan ends with `Token(EOF, "", "null", 1)`, and no earlier token is `EOF` |
| ScanSpec.OutputBoundedByLength | app/scanner.py:44-46 | Tokens plus reports are at most the number of loop turns, which is at most the number of characters scanned |
| ScanSpec.TokenCountBound | app/scanner.py:42-47 | A complete scan yields at most one token per character plus `EOF` |
| ScanSpec.TokensAreSlices | app/scanner.py:37-40 | Each token's lexeme is the slice `source[start:current]` of its step. These slices are one or two characters long, in order and not overlapping. A bare operator slice is not followed by `=` |
| ScanSpec.ReportsAreUnexpectedCharacters | app/scanner.py:105-106 | Every report is "Unexpected character: " followed by one character that no case handles, on line 1, with no location |
| ScanSpec.ErrorIffUnhandledStep | app/scanner.py:103-106 | The scan reports an error if and only if some `scan_token` call starts at a character that no case handles |
| ScanSpec.HandledTextHasNoError | app/scanner.py:53-102 | Text made only of handled characters scans without any report |
| ScanSpec.BlankTextIsAllErrors | app/scanner.py:103-106 | Space, tab, carriage return and newline yield no token and one report each |
| ScanSpec.CommentLeavesNewline | app/scanner.py:97-100 | A `//` comment appends and reports nothing. Scanning continues at the newline, which is then reported |
| ScanSpec.EqualEqualIsOneToken | app/scanner.py:73-78 | `==` scans to one `EQUAL_EQUAL` token and `EOF` |
| ScanSpec.EqualThenPlus | app/scanner.py:73-78 | `=+` scans to `EQUAL` then a separate `PLUS` |
| ScanSpec.UnknownCharacter | app/scanner.py:105-106 | `@` yields only `EOF` and the report "Unexpected character: @" |
| ScanSpec.CommentThenPlusSteps | app/scanner.py:97-102 | In `// c\n+`, the comment stops at the newline, the newline is unexpected, and `+` is a token |
| ScanSpec.CommentThenPlus | app/scanner.py:97-102 | `// c\n+` yields `PLUS` on line 1 and `EOF`, plus one report for the newline |
| Scanning.Scanner.constructor | app/scanner.py:10-16 | A new scanner holds the text, has no tokens and no reports, has both cursors at 0 and the line at 1, and has the flag clear |
| Scanning.Scanner.ErrorMessage | app/scanner.py:18-20 | Reports the message at the scanner's line, with no location |
| Scanning.Scanner.Report | app/scanner.py:22-25 | Appends one report and sets the error flag |
| Scanning.Scanner.IsAtEnd | app/scanner.py:28-30 | True exactly when `current` has reached the length of the text |
| Scanning.Scanner.Advance | app/scanner.py:32-35 | Returns the character under the cursor and moves the cursor forward by one |
| Scanning.Scanner.AddToken | app/scanner.py:37-40 | Appends one token whose lexeme is `source[start:current]`, at the scanner's line |
| Scanning.Scanner.Peek | app/scanner.py:108-112 | Returns the character under the cursor, or NUL at the end, and moves nothing |
| Scanning.Scanner.Match | app/scanner.py:114-121 | Returns true and advances by exactly one if and only if the cursor is not at the end and the character there is the expected one; otherwise `current` is unchanged |
| Scanning.Scanner.AddOneOrTwo | app/scanner.py:73-96 | A following `=` is consumed and gives the two-character kind; otherwise the bare kind is emitted and the next character is left alone |
| Scanning.Scanner.SlashOrComment | app/scanner.py:97-102 | A second `/` makes the rest of the line a comment, which adds nothing; otherwise one `SLASH` token is appended |
| Scanning.Scanner.SkipComment | app/scanner.py:99-100 | The comment loop ends at `CommentEnd`: the next newline (not consumed) or the end of the text |
| Scanning.Scanner.ScanToken | app/scanner.py:49-106 | One call performs exactly the reference step `ScanStep`: the same cursor movement, the same token with the lexeme `source[start:current]`, and the same report. The invariant `Valid` is preserved |
| Scanning.Scanner.ScanTokens | app/scanner.py:42-47 | The loop ends at the end of the text. It appends exactly `TokensFrom` and then `EOF`, and makes exactly the reports `DiagnosticsFrom`. The flag is set if and only if it was set already or a report was made. `start` ends at the last step's offset |
| Scanning.Scanner.GetTokens | app/scanner.py:128-130 | Returns the token list |
| Scanning.Scan | app/interpreter.py:31-34 | A fresh scanner's token list is `ScanAll` of the text, and its flag is set exactly when the scan made a report |

## Left out

- Printing to standard error in `report` (`app/scanner.py:24`) is not modelled. Only the structured `Diagnostic(line, where, message)` is appended; the formatted `[line N] Error: ...` text is not.
- `print_tokens` (`app/scanner.py:123-126`) is not modelled. It is console output; `GetTokens` and `Tokens.Render` give what it would print.
- `app/interpreter.py` and `app/main.py` are not modelled: file reading, command dispatch, usage messages and exit codes. `Scanning.Scan` stands for the scanner part of the `tokenize` command.
- String, number, identifier and keyword scanning, and line counting, are not modelled because the scanner has none of them.
- A token's literal is modelled by its printed form, an `Option<string>`. The scanner only ever passes `None`.
- The integer values that `Enum`/`auto()` gives the kinds are not modelled. `Tokens.Index` numbers the kinds in declaration order instead.
- Scanning.Scanner.Advance: requires a character under the cursor. In Python, reading past the end raises `IndexError`, and the scanner never does it.
- Scanning.Scanner.ScanToken: requires the scanner not to be at the end, as `scan_tokens` guarantees. Python would raise `IndexError` in `advance`.
- Scanning.Scanner.AddToken: requires `start <= current <= |source|`. It does not model Python's clamping of out-of-range slice bounds, which cannot happen under the class invariant.
