# rnmx command-line front end, modelled in Dafny

`rnmx` is a command-line tool that renames one file or directory. Its front
end (`src/setup.rs`) has three parts:

- It reads the argument vector and turns it into a request. The request is a
  flag plus, for a rename, the current and the new path.
- It lower-cases the flag and chooses one action: show the help menu, show
  the app info, rename the asset, or report an unknown flag and then show
  the menu.
- It draws a five-line `#` banner around the tool's name above the help
  menu.

The model has two modules:

- `Ascii` (`ascii.dfy`) models the two string operations the front end uses:
  `str::repeat` and `str::to_lowercase`. It also gives an independent
  definition of "equal up to ASCII case".
- `Frontend` (`frontend.dfy`) models the banner, the request parser and the
  dispatcher as pure functions. It also describes each action's effects as a
  list of values, and gives a second version of the front end as written,
  in which the code's `unwrap` calls panic.

The argument vector is a parameter. Printing and renaming are `Effect`
values and are never performed.

Each flag is stated as a set of spellings that are equal ignoring case
(`IsHelpFlag`, `IsInfoFlag`, `IsPathFlag`). The dispatcher itself compares the
lower-cased flag with the six literals, as the code does. Its contract ties
the two together.

The source reads the flag (line 79) and, for a rename, both paths
(lines 95-96) without checking that they are present, and the model differs
from it in exactly these two places. An argument vector with no flag gives
`UsageFailure(MissingFlag)`. A rename flag that does not come with exactly
two paths gives `UsageFailure(MissingPaths)`. In both cases the code panics.
The as-written functions `DispatchAsWritten` and `SetupAsWritten` keep those
panics. Their contracts prove that they agree with the corrected front end
wherever they do not panic, and that they panic exactly where it reports a
usage error.

## Model

| member | source | states |
|---|---|---|
| `Ascii.Repeat` | src/setup.rs:9-25 | the banner's `repeat` yields exactly `n` copies of the character |
| `Ascii.ToLower` | src/setup.rs:91 | lower-casing keeps the length, leaves no upper-case letter, and changes only upper-case letters, into their lower-case forms |
| `Ascii.ToLowerEqualIff` | src/setup.rs:91 | two flags lower-case to the same string exactly when they are equal ignoring ASCII case (both directions) |
| `Ascii.ToLowerMatchesIff` | src/setup.rs:91-94 | a flag's lower-cased form equals a lower-case literal such as `--path` exactly when the flag is a spelling of that literal in any mix of cases |
| `Frontend.Banner` | src/setup.rs:7-26 | five lines, each with 4 spaces of padding and then `|tool_name| + 8` characters; solid `#` borders first and last; `##` at both edges of every line; blank framed lines; the name centred between two spaces on each side |
| `Frontend.ToolBannerWidth` | src/setup.rs:8-11 | with the tool's own name, every banner line is 33 characters wide |
| `Frontend.ParseRequest` | src/setup.rs:71-81 | fails with MissingFlag exactly when there is no element 1; otherwise the flag is element 1; both paths are present exactly when there are 4 elements, and then they are elements 2 and 3 |
| `Frontend.ParseInvocation` | src/setup.rs:71-81 | parsing a request's two- or four-element invocation gives that request back |
| `Frontend.InvocationOfParse` | src/setup.rs:71-81 | every two- or four-element argument vector is the invocation of the request it parses to |
| `Frontend.Dispatch` | src/setup.rs:91-102 | help exactly for `-h`/`--help` in any case; info exactly for `-i`/`--info`; rename exactly for `-p`/`--path` with both paths, using those paths unchanged; a usage error for a rename flag without both paths; unknown flag exactly for every other flag |
| `Frontend.Setup` | src/setup.rs:88-103 | from the argument vector alone: MissingFlag exactly when there is no flag; rename exactly for a rename flag in a 4-element vector, from element 2 to element 3; MissingPaths exactly for a rename flag otherwise; help, info or unknown flag exactly by the flag's spelling |
| `Frontend.SetupIgnoresFlagCase` | src/setup.rs:91 | swapping the flag for another spelling that is equal ignoring case never changes the action |
| `Frontend.SetupIgnoresProgramName` | src/setup.rs:71-81 | element 0, the program name, never affects the action |
| `Frontend.PathFlagSpellings` | src/setup.rs:91-97 | `-P`, `--PATH` and `--Path` with two paths all select the rename of the first path to the second |
| `Frontend.Effects` | src/setup.rs:92-101 | only a rename touches the disk, and only with the paths of the action; help, unknown flag and usage errors show the menu; the last two report an error first and show the menu last; only an unknown flag reports it, and only a usage error reports one, namely its own; only info prints the app info; no effect occurs twice |
| `Frontend.OnlyPathRequestsTouchDisk` | src/setup.rs:92-97 | an invocation touches the disk exactly when it is a rename flag with two paths; help and info requests never do; a rename does exactly one thing, rename element 2 to element 3 |
| `Frontend.Scenarios` | src/setup.rs:88-103 | the documented invocations `-h`, `--help`, `-i`, `--info`, `-p hello.txt bye.txt` and `--path hello bye` give their actions, and `-x` reports an unknown flag and then shows the menu |
| `Frontend.DispatchAsWritten` | src/setup.rs:91-102 | the dispatch with its unwraps panics exactly where `Dispatch` reports a usage error, and otherwise returns the same action |
| `Frontend.SetupAsWritten` | src/setup.rs:88-103 | the front end as written panics exactly where `Setup` reports a usage error, and otherwise returns the same action |
| `Frontend.MissingFlagPanics` | src/setup.rs:79 | `rnmx` with no argument panics as written, and the corrected front end gives MissingFlag |
| `Frontend.PathWithoutBothPathsPanics` | src/setup.rs:94-96 | `rnmx -p hello.txt` and `rnmx -p a b c` panic as written, and the corrected front end gives MissingPaths |

## Left out

- `Asset::new` and `Asset::rename` (src/setup.rs:5, 95-96) belong to the `rnmx` library crate, which is not part of this model. They call the operating system's rename. A rename is the value `RenameAsset(current, renamed)`. There is no filesystem state, and filesystem errors (not found, permission denied, cross-device) are not modelled.
- Reading `env::args()` (src/setup.rs:89) is process state. The argument vector is a parameter instead.
- Console output is not modelled: the `println!`/`eprintln!` calls, the literal menu and info texts (src/setup.rs:28-58), and the text "Error: Unknown flag." (src/setup.rs:99). Each becomes an `Effect` value. The banner is modelled line by line, but it is not printed.
- Ascii.ToLower: models ASCII lower-casing, not Unicode `to_lowercase`. The only strings the flag is compared with are six ASCII flags, and the two versions agree on which flags match them.
- Frontend.Banner: counts widths in characters. Rust's `len()` counts UTF-8 bytes. The two agree for the tool's ASCII name.
- Exit codes are not modelled. The source never sets one, so it exits 0 after an unknown flag and with Rust's panic status after a panic.
- Frontend.Effects: the usage-error effects (error report, then menu) are the corrected behaviour. The code has no such branch; it panics there.
- The unit tests (src/setup.rs:110-136) create and delete real files and directories. They exercise only `Asset::rename`, which is left out.

## Findings

| source | as written | input that shows it | evidently intended | confidence | as-written member | corrected member |
|---|---|---|---|---|---|---|
| src/setup.rs:79 | `args.get(1).unwrap()` reads the flag without checking that it exists | `["rnmx"]`: the tool run with no argument panics | a usage error, as the note on `parse_request` (lines 68-70) already suggests for malformed invocations | high; not executed | `Frontend.MissingFlagPanics` | `Frontend.ParseRequest` |
| src/setup.rs:95-96 | the rename branch unwraps both paths, which `parse_request` fills only for exactly 4 arguments | `["rnmx", "-p", "hello.txt"]` and `["rnmx", "-p", "a", "b", "c"]` panic | a usage error for a rename flag without exactly two paths | high; not executed | `Frontend.PathWithoutBothPathsPanics` | `Frontend.Dispatch` |
