# promptdir: a verified model of the prompt-path shortener

`promptdir` prints the current working directory in a form meant for a shell
prompt. A directory under the user's home is written relative to home, with a
home icon (default `~`) in front. Every intermediate directory name longer than
a limit (default 6 bytes) is replaced whole by a placeholder (default `...`).
The leaf directory is always printed in full. Outside home, the filesystem root
prints as `/`.

The model follows `main` in `src/main.rs`:

- `Paths` (paths.dfy): path components, with the same variants as `std::path::Component`. A
  Windows prefix carries its parsed form, the form that `Path::components` yields and
  that decides whether two prefixes are equal. In it a drive letter is upper-cased, so
  `c:` and `C:` are one prefix and two different drives are two. Also the
  whole-component prefix strip that `Path::strip_prefix` performs.
- `PromptDir` (prompt_dir.dfy): the three options and their defaults, and the
  specification functions `Shortened` (render and shorten), `Layout` (the pieces
  after inserting the home icon or collapsing the root) and `Prompt` (the joined
  line). It also holds the imperative `FormatPath`. `FormatPath` does what `main` does, in the same order:
  a `for` loop that grows the vector of pieces, a `match` on the component kind,
  the early `break` at the leaf, the reassignment to the placeholder, the
  insertion at the front and the wholesale replacement by `["/"]`. Its
  postcondition ties its result to `Prompt`.
- `Properties` (properties.dfy): the lemmas that state what the formatter
  promises, proved about `Shortened`, `Layout` and `Prompt`.
- `Bytes` (bytes.dfy): bytes, the `/`-join of the pieces (`join("/")`), and the `split('/')` that
  undoes it.
- `Scenarios` (scenarios.dfy): five worked examples of the intended behaviour,
  proved on concrete directories.
- `Wrappers` (wrappers.dfy): `Option` (with `unwrap_or` as `GetOr`) and `Result`.

Modelling choices:

- Names, the placeholder, the home icon and the output are byte sequences.
  They hold the UTF-8 encoding of Rust's `String`. So "length" is byte length,
  as `String::len` counts it.
- `pwd` and `home` arrive already decomposed into components. Home stripping is a
  whole-component prefix test. So `/home/al` is not a prefix of `/home/alice`.
- The source panics on a Windows `Prefix` component (`unimplemented!`). The model
  returns `Err(UnsupportedPrefix)` instead. No output is produced, because the line is
  printed only at the end. The rejection applies to the path that is displayed, that is,
  after home has been stripped.
- `--length` is a `usize` in the source. The model uses `nat`, because a
  byte length never exceeds `usize`, so the comparison is the same.

Two natural readings of the intended behaviour are stronger than what the code does.
The model follows the code:

- One might expect that a path outside home with several components never
  begins with the home icon. The code guarantees something narrower. Such a path prints
  starting with `/`. So it begins with the icon only when the icon is empty or itself
  begins with `/` (`OutsideHomeStartsAtRoot`).
- One might expect that the output always has at least one piece. In the code, an
  empty `pwd` outside home gives an empty vector and an empty line.
  That cannot happen with a real absolute working directory, and the model gives
  the empty line too.

## Model

| member | source | states |
|---|---|---|
| `Paths.StripPrefix` | src/main.rs:32-34 | stripping succeeds exactly when `home` is a whole-component prefix of `pwd`, and then `pwd` is `home` followed by the result |
| `PromptDir.InHome` | src/main.rs:33 | `pwd` counts as under home exactly when stripping succeeds, which by `StripPrefix`'s contract is exactly when `home` is a whole-component prefix of `pwd` |
| `PromptDir.Relative` | src/main.rs:34 | the displayed path: the remainder after `home` when under home, else `pwd` itself; `Scenarios.RelativeUnder` and `AtHomeIsIcon` state it |
| `PromptDir.Shortened` | src/main.rs:41-57 | rendering succeeds exactly when no component is a Windows prefix (else `UnsupportedPrefix`), and yields one piece per component |
| `PromptDir.FormatPath` | src/main.rs:27-67 | the imperative walk (loop with early break at the leaf, placeholder reassignment, insert of the home icon, replacement by `/`) returns exactly the line `Prompt` specifies, error included |
| `Properties.ShortenedAt` | src/main.rs:49-57 | piece `k` comes from component `k`, in order: the leaf's text verbatim, any other component's text shortened by the limit |
| `Properties.UnsupportedIffPrefix` | src/main.rs:42-48 | formatting fails, with `UnsupportedPrefix`, if and only if the displayed path holds a Windows prefix component; otherwise a line is produced |
| `Properties.OnePiecePerComponent` | src/main.rs:39-65 | one piece per displayed component, plus the leading home icon under home; outside home a one-component path becomes the single piece `/` |
| `Properties.LeafKeptVerbatim` | src/main.rs:49-53 | the last piece is the leaf's text whatever its length, and the printed line ends with it (root-only path outside home excepted) |
| `Properties.NonLeafElidedWhole` | src/main.rs:54-57 | a non-leaf component longer than the limit becomes exactly the placeholder; one within the limit is kept verbatim; never partly truncated |
| `Properties.RootNeverElided` | src/main.rs:42-57 | the root component renders as the empty piece and is never replaced by the placeholder |
| `Properties.HomeIconLeads` | src/main.rs:61-62 | under home the first piece is the home icon and the printed line starts with it |
| `Properties.AtHomeIsIcon` | src/main.rs:32-62 | when `pwd` equals `home` the printed line is exactly the home icon, whatever the components of home |
| `Properties.FilesystemRootIsSlash` | src/main.rs:63-65 | outside home a one-component path (the filesystem root) prints exactly `/` |
| `Properties.OutsideHomeStartsAtRoot` | src/main.rs:41-67 | outside home an absolute multi-component path has an empty first piece and prints starting with `/`, so it starts with the icon only if the icon is empty or starts with `/` |
| `Properties.OtherDriveRejected` | src/main.rs:32-47 | a home on one Windows drive never contains a directory on another: stripping fails and formatting ends with `UnsupportedPrefix` |
| `Properties.PromptSplitsIntoLayout` | src/main.rs:67 | when no piece holds `/`, splitting the printed line at `/` gives back the pieces, in order |
| `Bytes.SplitJoin` | src/main.rs:67 | `split('/')` undoes `join("/")` on any non-empty list of slash-free pieces |
| `Bytes.JoinStartsWithFirst` | src/main.rs:67 | the joined line begins with the first piece, followed by `/` when more pieces follow |
| `Bytes.JoinEndsWithLast` | src/main.rs:67 | the joined line ends with the last piece, unaltered |
| `Paths.Text` | src/main.rs:42-48 | the display text of a supported component: the root is empty, a name is itself, `.` and `..` stay; `RootNeverElided`, `LeafKeptVerbatim` and `NonLeafElidedWhole` state it per piece |
| `PromptDir.Shorten` | src/main.rs:54-56 | a name is replaced whole by the placeholder exactly when it is longer than the limit; stated per piece by `NonLeafElidedWhole` |
| `PromptDir.Layout` | src/main.rs:61-65 | the pieces after post-processing; pinned down by `OnePiecePerComponent`, `HomeIconLeads`, `AtHomeIsIcon`, `FilesystemRootIsSlash` and `OutsideHomeStartsAtRoot` |
| `PromptDir.Prompt` | src/main.rs:67 | the printed line, the `/`-join of `Layout`; `FormatPath` is proved equal to it and `PromptSplitsIntoLayout` inverts the join |
| `Bytes.Join` | src/main.rs:67 | `join("/")` on the pieces; `SplitJoin`, `JoinStartsWithFirst` and `JoinEndsWithLast` state what it produces |
| `PromptDir.Limit` | src/main.rs:54 | `--length` or 6; `DefaultOptions` states the default |
| `PromptDir.Placeholder` | src/main.rs:55 | `--placeholder` or `...`; `DefaultOptions` states the default |
| `PromptDir.HomeIcon` | src/main.rs:62 | `--home-icon` or `~`; `DefaultOptions` states the default |
| `Scenarios.DefaultOptions` | src/main.rs:10-22 | with no option given the limit is 6, the placeholder `...` and the home icon `~` |
| `Scenarios.NestedUnderHome` | src/main.rs:27-67 | `/home/alice/projects/very-long-directory-name` with home `/home/alice` prints `~/.../very-long-directory-name` |
| `Scenarios.AtHome` | src/main.rs:27-67 | `/home/alice` with home `/home/alice` prints `~` |
| `Scenarios.OutsideHome` | src/main.rs:27-67 | `/tmp` with home `/home/alice` prints `/tmp` |
| `Scenarios.AtRoot` | src/main.rs:27-67 | `/` with home `/home/alice` prints `/` |
| `Scenarios.CustomOptions` | src/main.rs:27-67 | with length 3, placeholder `*` and icon `H:`, `/home/alice/documents/report` prints `H:/*/report` |

## Left out

- Command-line parsing with clap (`Args::parse`). It is a foreign library, so the model takes the three
  optional values directly.
- `current_dir()` and `home_dir()` and their `unwrap` failures. They are environment reads, so
  `pwd` and `home` are parameters.
- `Path::components()`: turning raw path bytes into components, including
  dropping repeated slashes and interior `.`, and parsing a Windows prefix
  (upper-casing its drive letter). It is standard-library code, so paths
  arrive decomposed, with each prefix already in its parsed form.
- The UTF-8 check `into_string().unwrap()` on a name. Names are taken as the bytes of
  valid text; the panic on invalid UTF-8 is not modelled.
- `print!`. `FormatPath` returns the line instead of writing it to standard output.
- The unused import of `set_current_dir`, which has no behaviour.
