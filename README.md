# sysfetch-rs in Dafny

sysfetch-rs is a small system-information tool. It prints a piece of ASCII art for the operating system on the left. On the right it prints a column of "key: value" lines about the machine. This project models the part of the program that decides what is printed:

- the art catalog: the tables, their width, and the variant names;
- the uptime formatter;
- the builder of the info lines;
- the two-column renderer.

Every operating-system lookup enters as a plain input value. The project proves what the program promises about its output.

A printed line is modelled as styled text: a sequence of spans, each one visible text under one colour style (`StyledText`). Stripping the terminal escape codes keeps the visible text of the spans. The escape codes themselves are abstracted to a count: every coloured span adds `esc` characters to the line's raw length.

Modules:

- `StyledText`: spans, stripping, visible width, raw length, and splitting a line at its tab.
- `Decimal`: decimal rendering of natural numbers and its inverse.
- `IconArtCatalog` (`src/icon_art.rs`):
  - the three art tables;
  - `get_length`;
  - the variant names;
  - the `FromStr` and `ValueEnum` parse and print pair.
- `DurationExtras` (`src/duration_extras.rs`): the uptime text.
- `CliArgs` (`src/cli_args.rs`): the options, as a record of switches plus the art override.
- `InfoBuilder` (`src/info_builder.rs`):
  - `get_entry_formatted`;
  - `build_info_lines`, with every lookup read from a `Snapshot` value;
  - the GPU filter, sort and dedup pipeline.
- `Renderer` (`src/main.rs`): `get_system_icon_art`, the art override, `render` and `main`.

## Model

| member | source | states |
|---|---|---|
| StyledText.RawLength | src/icon_art.rs:92 | The raw length of a line is at least its visible width, and equals it when no span is coloured. |
| StyledText.Spaces | src/main.rs:30 | The padding has exactly the requested width, carries no colour and holds no column separator. |
| StyledText.SplitAtTab | src/main.rs:28 | A line built as `a`, tab, `b` with `a` tab-free splits back at its first tab into exactly `a` and `b`. |
| Decimal.ParseNatToString | src/duration_extras.rs:18-27 | Reading the decimal digits written for a count gives the count back. |
| Decimal.NatToStringInjective | src/duration_extras.rs:18-27 | Different counts are written as different digit strings. |
| IconArtCatalog.ToLines | src/icon_art.rs:83-89 | Every variant has a table: 15 lines for Windows, 19 for Arch, 18 for Unknown. No line holds a column separator. |
| IconArtCatalog.MaxByRawLength | src/icon_art.rs:92 | The chosen line has the greatest raw length of all lines. It is the last line with that length, as `max_by` keeps the last maximum. |
| IconArtCatalog.TableWidth | src/icon_art.rs:91-97 | `get_length`: zero for an empty table; otherwise the visible width of a line whose raw length is the greatest. |
| IconArtCatalog.MaxWidth | src/icon_art.rs:91-97 | The greatest visible width: no line is wider, and some line reaches it. |
| IconArtCatalog.RawLongestIsWidest | src/icon_art.rs:92-93 | When raw length orders lines as visible width does, the raw-longest line is a widest line. |
| IconArtCatalog.SameStylingOrdersWidth | src/icon_art.rs:92-93 | Lines with the same number of coloured spans are ordered by raw length as by width. |
| IconArtCatalog.WindowsShape | src/icon_art.rs:10-26 | Every Windows line is 34 characters wide. |
| IconArtCatalog.ArchShape | src/icon_art.rs:28-48 | Every Arch line is 38 characters wide and is one blue span. |
| IconArtCatalog.UnknownShape | src/icon_art.rs:50-69 | No Unknown line is wider than 24 characters, the last one is 24 wide, and none is coloured. |
| IconArtCatalog.WindowsWidth | src/icon_art.rs:91-97 | `get_length` of Windows is 34, the widest line, for any escape length. |
| IconArtCatalog.ArchWidth | src/icon_art.rs:91-97 | `get_length` of Arch is 38, the widest line, for any escape length. |
| IconArtCatalog.UnknownWidth | src/icon_art.rs:91-97 | `get_length` of Unknown is 24, the widest line, for any escape length. |
| IconArtCatalog.GetLengthIsWidestLine | src/icon_art.rs:91-97 | For every variant, `get_length` equals the greatest visible width of its lines. So the empty-table branch is never taken and no art line is wider than the result. |
| IconArtCatalog.ParseName | src/icon_art.rs:75-80 | The derived parse returns the variant whose name is exactly the input, and nothing when no name matches. |
| IconArtCatalog.FromStr | src/icon_art.rs:111-117 | Succeeds exactly when the input is a variant name, and then returns that variant. Otherwise it fails with "Failed to parse art icon". |
| IconArtCatalog.NameRoundTrip | src/icon_art.rs:100-117 | Parsing a printed variant name gives the variant back, whatever the case flag. |
| IconArtCatalog.FromStrIsCaseSensitive | src/icon_art.rs:111-117 | "windows", "ARCH" and "" are rejected: the match is case-sensitive and the flag is not read. |
| IconArtCatalog.ValueVariants | src/icon_art.rs:72 | Three distinct variants, the i-th being the i-th declared: Windows, Arch, Unknown. |
| IconArtCatalog.ValueVariantsComplete | src/icon_art.rs:107-109 | Every variant is in the list. |
| IconArtCatalog.ToPossibleValue | src/icon_art.rs:119-121 | Every variant has a possible value, and parsing it gives the variant back. |
| DurationExtras.Decompose | src/duration_extras.rs:12-15 | Seconds and minutes are below 60, hours below 24, and days, hours, minutes and seconds add back up to the total. |
| DurationExtras.DecomposeUnique | src/duration_extras.rs:12-15 | Any split meeting those bounds is the one computed. |
| DurationExtras.FormatDuration | src/duration_extras.rs:17-30 | The four conditional writes produce exactly the text of the non-zero pieces, in unit order. |
| DurationExtras.PiecesAddUp | src/duration_extras.rs:12-28 | The pieces that are written add up to the total number of seconds. |
| DurationExtras.PiecesShape | src/duration_extras.rs:17-28 | A unit is written iff its count is non-zero; it is written with that count; units come as days, hours, minutes, seconds. |
| DurationExtras.NonZeroMembers | src/duration_extras.rs:17-28 | A piece is kept iff it was there and its count is non-zero. |
| DurationExtras.DurationTextEmptyIffZero | src/duration_extras.rs:17-30 | The text is empty exactly when the uptime is zero. |
| DurationExtras.ParsePiecesText | src/duration_extras.rs:18-27 | Reading the written text of any list of pieces gives the list back. |
| DurationExtras.DurationTextRoundTrip | src/duration_extras.rs:17-28 | Reading the uptime text gives back exactly the pieces that were written. |
| DurationExtras.DurationTextInjective | src/duration_extras.rs:12-28 | Different uptimes give different texts. |
| DurationExtras.PieceTextOf | src/duration_extras.rs:17-28 | A piece is written as its count and its unit's suffix when the count is positive, and not at all otherwise. |
| DurationExtras.DurationTextOneOfEach | src/duration_extras.rs:18-27 | 90061 seconds reads "1 days 1 hours 1 minutes 1 seconds". |
| DurationExtras.DurationTextOneHour | src/duration_extras.rs:18-21 | 3600 seconds reads "1 hours ", with the trailing space. |
| InfoBuilder.EntryRoundTrip | src/info_builder.rs:12-15 | An entry shows its label in yellow and reads `label: value`. A colon-free label splits back into exactly that label and value. |
| InfoBuilder.HeaderAndDivider | src/info_builder.rs:54-57 | The header reads `user@host` when the host name is known and `user` otherwise. The divider under it is that many '-' characters. |
| InfoBuilder.Swatch | src/info_builder.rs:153-174 | A swatch is eight three-block spans in the palette's order, bright or normal. |
| InfoBuilder.KeepGpus | src/info_builder.rs:115 | Exactly the discrete and integrated adapters are kept, in their enumeration order (a subsequence of the input). For every id, the first adapter kept with it is the first GPU of the input with that id. |
| InfoBuilder.InsertByDevice | src/info_builder.rs:116 | Inserting keeps every adapter: the result is a permutation of the input plus the new one. |
| InfoBuilder.SortByDevice | src/info_builder.rs:116 | The sort is a permutation of its input. |
| InfoBuilder.InsertKeepsSorted | src/info_builder.rs:116 | Inserting into a list sorted by device id keeps it sorted. |
| InfoBuilder.InsertFirstWithDevice | src/info_builder.rs:116 | Insertion puts the new adapter before the adapters with the same id, so the order among equal ids is kept. |
| InfoBuilder.SortSpec | src/info_builder.rs:116 | The result is sorted by device id, and for every id the first adapter with it is unchanged. That is the part of stability the deduplication relies on. |
| InfoBuilder.DedupByDevice | src/info_builder.rs:117 | Deduplication keeps only adapters of its input and keeps the first one. |
| InfoBuilder.DedupFirstWithDevice | src/info_builder.rs:117 | For every id, the adapter kept is the first one with that id. |
| InfoBuilder.DedupStrict | src/info_builder.rs:117 | On sorted input, the result has strictly increasing ids, one adapter per id. |
| InfoBuilder.GpuAdaptersSpec | src/info_builder.rs:114-118 | The GPU list has strictly increasing ids and holds only GPUs. For every id, the adapter it holds is the first GPU adapter of the enumeration with that id, and there is none when no GPU has that id. |
| InfoBuilder.GpuLines | src/info_builder.rs:118-120 | The i-th adapter is written as "GPU i+1: name", one line per adapter. |
| InfoBuilder.PushEntry | src/info_builder.rs:59-108 | Appends a one-line field's line exactly when the field is shown. |
| InfoBuilder.PushGpuLines | src/info_builder.rs:114-122 | The loop appends one numbered line per adapter when the GPU field is shown, and nothing otherwise. |
| InfoBuilder.PushField | src/info_builder.rs:59-148 | After one field's step, the lines built plus the lines of the remaining fields are still the whole expected list. |
| InfoBuilder.PushHostFields | src/info_builder.rs:59-80 | Same invariant across Distro, Device, Arch and Uptime. |
| InfoBuilder.PushHardwareFields | src/info_builder.rs:82-108 | Same invariant across the motherboard and CPU fields. |
| InfoBuilder.PushGpuField | src/info_builder.rs:111-122 | Same invariant across the GPU lines. |
| InfoBuilder.PushUsageFields | src/info_builder.rs:125-149 | After memory, swap and local address, the lines built are the whole expected list. |
| InfoBuilder.BuildInfoLines | src/info_builder.rs:49-177 | The pushes produce exactly the header, the divider, the shown fields in fixed order and the three-line trailer. |
| InfoBuilder.LineCount | src/info_builder.rs:49-177 | Line count is 2 + shown one-line fields + GPU lines (when shown) + 3. |
| InfoBuilder.ShowAllCount | src/info_builder.rs:59-149 | With the show-all option on, there are 18 lines plus one per GPU. |
| InfoBuilder.LabelInjective | src/info_builder.rs:59-148 | No two one-line fields share a label. |
| InfoBuilder.FieldShownIff | src/info_builder.rs:59-149 | A field's line appears, with the field's value, iff the field's own option or show-all is set. |
| InfoBuilder.GpuLineShownIff | src/info_builder.rs:114-122 | "GPU i+1" appears, naming the i-th adapter, iff the GPU field is shown and there are more than i adapters. |
| InfoBuilder.FixedOrder | src/info_builder.rs:59-149 | The lines for any options are a subsequence of the lines with every field shown, so the field order never changes. |
| InfoBuilder.IgnoredOptions | src/info_builder.rs:49-177 | The packages and desktop-environment switches and the art choice never change the info lines. |
| InfoBuilder.UnknownFallbacks | src/info_builder.rs:72-79 | A shown field whose lookup failed still has its line, with the value "Unknown". This covers uptime, motherboard name and manufacturer (lines 83 and 87), CPU frequency (lines 99-103) and local address (lines 143-148). |
| Renderer.SystemIconArt | src/main.rs:15-19 | The art whose name is exactly the operating system's name. Any other name, or a missing name, gives Unknown. |
| Renderer.ChooseArt | src/main.rs:45 | An art given on the command line always wins; otherwise the art detected from the system name is used. |
| Renderer.ZipLongest | src/main.rs:26-32 | One blank line, then one row per line of the longer column. Rows have the three shapes: both sides, art only, or padding then info. |
| Renderer.Render | src/main.rs:21-33 | Lays out the variant's table beside the info lines. The padding width is `get_length` of the variant. |
| Renderer.Run | src/main.rs:44-45 | The program prints the built info lines beside the chosen art. |
| Renderer.RowText | src/main.rs:28-30 | The visible text of each row is exactly one of: `"  " + art + "\t" + info`; `"  " + art`; or `"  "` + `width` spaces + `"\t" + info`. |
| Renderer.RowColumns | src/main.rs:28-30 | Each row splits at its first tab into the indented art line (or padding) and the info line. Art-only rows have no tab. |
| Renderer.RecoverInfo | src/main.rs:26-32 | Deleting the art and the separator from every row gives back the info lines exactly, in order. |
| Renderer.RecoverArt | src/main.rs:26-32 | The text before each row's tab is the indent plus the art lines, in order. Rows past the art hold only the indented padding. |
| Renderer.RunShowsInfo | src/main.rs:44-45 | Whatever art is chosen, the info column of the output is exactly what the builder produced. |

## Left out

- `src/package_counter.rs` is not part of this model. The builder never calls it; it runs an external process on one platform and is unfinished on the others.
- Parsing of the command-line flags is not modelled; `CliArgs.Cli` is the parsed result.
- Every operating-system and library lookup is an input:
  - user, host, distribution, device and architecture names;
  - uptime;
  - the SMBIOS motherboard and CPU-speed tables;
  - the graphics adapters;
  - the local address;
  - the CPU list.
- The CPU usage, the memory and swap sizes and the CPU frequency arrive as already formatted text. Their floating-point formatting, and the size and frequency crates behind it, are outside the model.
- The uptime is a whole number of seconds. The source's `f64` arithmetic on fractional seconds is not modelled; for whole seconds it computes the same floor and modulo results.
- The pause and the second CPU refresh before building the lines (src/main.rs:37-42) are timing only and are not modelled. `println!` becomes returning the list of lines.
- The colouring crate's escape bytes are abstracted. A coloured span adds `esc` characters, and `esc = 0` models the crate emitting nothing.
- Lengths count characters, whereas the source's `len()` counts UTF-8 bytes. The two agree on the art tables. They differ only for a non-ASCII user or host name in the divider width.
- IconArtCatalog.ToLines: "no column separator" is stated on spans: no art line holds the separator span. That the art's visible text holds no tab character is not proved, because checking every character of the 52 literal lines is beyond the proof budget. The art tables have no tab character as written.
- The clap parser's own case-insensitive matching of possible values is not modelled. `FromStr` is the `from_str` the source writes, which ignores its case flag.
- The formatter error of each `write!` in the uptime formatter is not modelled; writing to a string cannot fail.
- InfoBuilder.BuildInfoLines: the source's `unwrap` on the first CPU (src/info_builder.rs:91, 95) would abort on an empty CPU list. The model requires a CPU to be present whenever a CPU line is shown (`CpuLookupsDefined`) instead of modelling the abort.
- InfoBuilder.BuildInfoLines: the source's sequence of conditional pushes is split over helper methods, one per group of fields. Each helper keeps the same invariant, and the order of the pushes is unchanged.
