# tidydir, modelled in Dafny

tidydir sorts the files of a directory into category folders (`Images/`,
`Documents/`, `Code/`, ...) chosen by each file's extension. It sends files
older than a threshold to a dated `archive_YYYYMMDD/<category>/` folder. A
name that is already taken gets a numbered `stem_k.suffix`. The organizer can
show the plan (`preview`) or carry it out (`execute`). The command line asks
for confirmation before moving anything and turns each outcome into an exit
code. A maintenance script reports extensions that the category table lists
under more than one category.

This project models those parts and proves what they promise:

- **Categories** and **TableFacts**: the `FileCategory` enumeration and the
  `CATEGORY_EXTENSIONS` table, literal by literal and in declaration order.
  TableFacts establishes, category by category, which extensions each
  category lists.
- **Classifier**: `_build_extension_map` as a method, proved equal to a left
  fold in which later declarations override earlier ones. Also `get_category`
  (lower-cased suffix lookup, defaulting to `Files`) and `is_old_file`.
- **TableMap**: what that fold makes of the category table, such as the
  winning category of a twice-declared extension, mixed-case literals and
  multi-dot keys.
- **Paths**, **Text** and **FileSystem**: the parts of `pathlib`, `str` and
  the operating system the organizer relies on. The disk is a value:
  directories, files, permissions and modification times.
- **Resolver**: `get_target_path`'s choice of directory and its probing for a
  free name.
- **Plans**: the `defaultdict` that `preview` builds and the order in which
  `execute` walks it.
- **Execution**: the directory loop and the move loop of `execute`, as
  functions of the disk.
- **Lists**: a shared, mutable Python list.
- **Organizer**: the `FileOrganizer` class itself. Its methods `Preview`,
  `GetTargetPath` and `Execute` update the organizer's `conflicts` and
  `errors` lists in place. Each method is proved against the functions
  above.
- **Duplicates**: `find_duplicates` and the within-category check of
  scripts/fix_duplicate_extensions.py.
- **Cli**: `confirm_action` and the early-return chain of `main` in cli.py.

A few behaviours of the code are worth stating plainly, because a reader
might expect otherwise. The model follows the code in each:

- The archive date is read by every `get_target_path` call
  (organizer.py:214), so one run can file old files under more than one
  date. The model takes the date of the i-th call as `dateOf(i)`.
- When an extension is listed under two categories, the later one wins
  (organizer.py:81-83). The table is neither deduplicated nor checked for
  duplicates.
- Probing checks only the disk, not targets already planned in the same run.
  Two files with the same name bound for the same directory get the same
  target, and one of them is lost (`Organizer.FileOrganizer.SameNameCollision`).
- Under `--archive-old`, the date folder holds the category folders:
  `target/archive_<date>/<category>` (organizer.py:215).

## Model

| member | source | states |
|---|---|---|
| Categories.ValuesDistinct | src/tidydir/categories.py:7-26 | the seventeen `FileCategory` values are pairwise different, so distinct categories get distinct directories, and none begins with `archive_` |
| TableFacts.ApplicationsCase | src/tidydir/categories.py:31-34 | every Applications literal is lower case or one of the four mixed-case literals |
| TableFacts.ApplicationsProbes | src/tidydir/categories.py:31-34 | Applications lists `.exe` and `.dmg`, and does not list `""`, `.jpg`, `.pdf`, `.mp3`, `.flac`, `.odt`, `.vhd`, `.webm`, `.s`, `.m`, `.M` or `.tar.gz` |
| TableFacts.ArchivesCase | src/tidydir/categories.py:35-39 | every Archives literal is lower case or mixed-case |
| TableFacts.ArchivesProbes | src/tidydir/categories.py:35-39 | Archives lists `.zip` and the multi-dot `.tar.gz`, and none of the other probe extensions |
| TableFacts.DocumentsCase | src/tidydir/categories.py:40-44 | every Documents literal is lower case or mixed-case |
| TableFacts.DocumentsProbes | src/tidydir/categories.py:40-44 | Documents lists `.pdf` and `.odt`, and none of the other probe extensions |
| TableFacts.FontsCase | src/tidydir/categories.py:45-48 | every Fonts literal is lower case or mixed-case |
| TableFacts.FontsProbes | src/tidydir/categories.py:45-48 | Fonts lists `.ttf`, and none of the probe extensions |
| TableFacts.ImagesCase | src/tidydir/categories.py:49-57 | every Images literal is lower case or mixed-case |
| TableFacts.ImagesProbes | src/tidydir/categories.py:49-57 | Images lists `.jpg`, and none of the other probe extensions |
| TableFacts.ScriptsCase | src/tidydir/categories.py:58-63 | every Scripts literal is lower case or mixed-case |
| TableFacts.ScriptsProbes | src/tidydir/categories.py:58-63 | Scripts lists `.py` and `.m` (line 61), and none of the other probe extensions |
| TableFacts.TextCase | src/tidydir/categories.py:64-71 | every Text literal is lower case or mixed-case |
| TableFacts.TextProbes | src/tidydir/categories.py:64-71 | Text lists `.txt`, and none of the probe extensions |
| TableFacts.VideosCase | src/tidydir/categories.py:72-83 | every Videos literal is lower case or mixed-case |
| TableFacts.VideosProbes | src/tidydir/categories.py:72-83 | Videos lists `.mp4` and `.webm`, and none of the other probe extensions |
| TableFacts.ThreeDCase | src/tidydir/categories.py:84-92 | every 3D literal is lower case or mixed-case |
| TableFacts.ThreeDProbes | src/tidydir/categories.py:84-92 | 3D lists `.obj`, and none of the probe extensions |
| TableFacts.DiskImagesCase | src/tidydir/categories.py:93-101 | every Disk Images literal is lower case or mixed-case |
| TableFacts.DiskImagesProbes | src/tidydir/categories.py:93-101 | Disk Images lists `.iso`, `.vhd`, `.dmg` and `.flac` (line 98), and none of the other probe extensions |
| TableFacts.VMsCase | src/tidydir/categories.py:102-107 | every VMs literal is lower case or mixed-case |
| TableFacts.VMsProbes | src/tidydir/categories.py:102-107 | VMs lists `.ova` and `.vhd` (line 105), and none of the other probe extensions |
| TableFacts.AudioCase | src/tidydir/categories.py:108-120 | every Audio literal is lower case or mixed-case |
| TableFacts.AudioProbes | src/tidydir/categories.py:108-120 | Audio lists `.mp3`, `.flac` and `.webm` (line 113), and none of the other probe extensions |
| TableFacts.EbooksCase | src/tidydir/categories.py:121-149 | every Ebooks literal is lower case or mixed-case |
| TableFacts.EbooksProbes | src/tidydir/categories.py:121-149 | Ebooks lists `.epub` and `.odt` (lines 127 and 141), and none of the other probe extensions |
| TableFacts.SpreadsheetsCase | src/tidydir/categories.py:150-156 | every Spreadsheets literal is lower case or mixed-case |
| TableFacts.SpreadsheetsProbes | src/tidydir/categories.py:150-156 | Spreadsheets lists `.xls`, and none of the probe extensions |
| TableFacts.PresentationsCase | src/tidydir/categories.py:157-165 | every Presentations literal is lower case or mixed-case |
| TableFacts.PresentationsProbes | src/tidydir/categories.py:157-165 | Presentations lists `.ppt`, and none of the probe extensions |
| TableFacts.CodeCase | src/tidydir/categories.py:166-203 | every Code literal is lower case or one of `.S`, `.M`, `.BUILD`, `.WORKSPACE` |
| TableFacts.CodeProbes | src/tidydir/categories.py:166-203 | Code lists `.c`, `.vhd`, `.s`, `.S`, `.m`, `.M`, `.BUILD`, `.WORKSPACE` and `.vbproj.user`, and none of the other probe extensions |
| Classifier.ExtensionMapStep | src/tidydir/organizer.py:81-83 | one outer iteration: the last entry's lowered extensions take its category, and every other key keeps its earlier value |
| Classifier.ExtensionMapKeys | src/tidydir/organizer.py:78-84 | a string is a key of the map exactly when some entry lists an extension that lowers to it |
| Classifier.ExtensionMapLastWins | src/tidydir/organizer.py:81-83 | a key maps to the category of the last entry listing it, so a later declaration overrides an earlier one |
| Classifier.ExtensionMapKeysLower | src/tidydir/organizer.py:83 | every key of the map is lower case |
| Classifier.ExtensionMapValues | src/tidydir/organizer.py:78-84 | every value of the map is the category of some table entry |
| Classifier.BuildExtensionMap | src/tidydir/organizer.py:78-84 | the nested loop builds exactly the last-wins fold, whatever order each set is iterated in |
| Classifier.AssignOneMore | src/tidydir/organizer.py:83 | one assignment `ext_map[ext.lower()] = category` extends the entry's comprehension by one key |
| Classifier.LastDotLower | src/tidydir/organizer.py:135 | lower-casing a name does not move its last dot |
| Classifier.SuffixLower | src/tidydir/organizer.py:135 | the suffix of the lower-cased name is the lower-cased suffix |
| Classifier.CategoryIgnoresCase | src/tidydir/organizer.py:125-136 | two files whose names agree once lower-cased fall in the same category |
| Classifier.MultiDotKeyUnreachable | src/tidydir/organizer.py:135-136 | a key with two dots, such as `.tar.gz`, never equals a looked-up suffix |
| Classifier.IsOldThreshold | src/tidydir/organizer.py:138-153 | old means strictly before the cutoff: exactly at the cutoff is not old, older than old is old, and unreadable metadata is not old |
| Classifier.OldMeansOlderThanDays | src/tidydir/organizer.py:61 | with the constructor's cutoff, a file is old exactly when it was modified more than `days` whole days before construction |
| TableMap.MixedLowered | src/tidydir/categories.py:186-202 | `.S`, `.M`, `.BUILD` and `.WORKSPACE` lower to `.s`, `.m`, `.build` and `.workspace` |
| TableMap.LowerSetWellCased | src/tidydir/organizer.py:83 | in a well-cased set, a lower-case key other than `.s`, `.m`, `.build` and `.workspace` is listed in lowered form exactly when it is listed as written |
| TableMap.EmptyLowered | src/tidydir/organizer.py:83 | `""` is a lowered extension exactly when `""` itself is listed |
| TableMap.TableOfShape | src/tidydir/categories.py:30-204 | the table has sixteen entries in declaration order, entry p carrying its category's set |
| TableMap.KeysOfTable | src/tidydir/organizer.py:78-84 | the keys are exactly the lowered literals of the sixteen sets |
| TableMap.LastDeclaredWins | src/tidydir/organizer.py:81-83 | a key maps to the latest category, in declaration order, whose set lowers to it |
| TableMap.LastDeclaredWinsCased | src/tidydir/organizer.py:81-83 | for a lower-case key that is not one of the four mixed-case forms, the latest category listing it wins |
| TableMap.FilesIsNoValueOf | src/tidydir/organizer.py:136 | `Files` is never a value of the map: it is reached only as the default |
| TableMap.DocumentsWins | src/tidydir/categories.py:40-44 | a lower-case extension listed under Documents and under no later category maps to Documents |
| TableMap.ImagesWins | src/tidydir/categories.py:49-57 | the same for Images, such as `.jpg` |
| TableMap.DiskImagesWins | src/tidydir/categories.py:93-101 | the same for Disk Images: `.dmg`, listed under Applications (line 32) and Disk Images (line 94), maps to Disk Images |
| TableMap.AudioWins | src/tidydir/categories.py:108-120 | the same for Audio: `.flac`, listed under Disk Images (line 98) and Audio (line 109), maps to Audio |
| TableMap.EbooksWins | src/tidydir/categories.py:121-149 | the same for Ebooks: `.odt`, listed under Documents (line 41) and Ebooks (line 127), maps to Ebooks |
| TableMap.CodeWins | src/tidydir/categories.py:166-203 | any lower-case Code extension maps to Code: `.vhd` (lines 94, 105, 191) goes to Code, the last category |
| TableMap.MixedCaseKeys | src/tidydir/categories.py:186-202 | `.s`, `.m`, `.build` and `.workspace` map to Code, and the upper-case spellings are not keys |
| TableMap.NoSuffixIsFiles | src/tidydir/organizer.py:135-136 | when no set lists `""`, a file without a suffix falls in `Files` |
| TableMap.MultiDotKeysUnreachable | src/tidydir/categories.py:36-37 | a listed multi-dot extension such as `.tar.gz` (line 36) or `.vbproj.user` (line 174) is a key that no file's suffix can reach |
| TableMap.DeclaredWellCased | src/tidydir/categories.py:30-204 | every literal of the table is lower case or one of the four mixed-case literals |
| TableMap.DeclaredNonEmpty | src/tidydir/categories.py:30-204 | each of the sixteen categories lists at least one extension |
| TableMap.JpgListing | src/tidydir/categories.py:50 | `.jpg` is listed under Images only |
| TableMap.PdfListing | src/tidydir/categories.py:41 | `.pdf` is listed under Documents only |
| TableMap.Mp3Listing | src/tidydir/categories.py:109 | `.mp3` is listed under Audio only |
| TableMap.FlacListing | src/tidydir/categories.py:98-109 | `.flac` is listed under Disk Images and Audio only |
| TableMap.OdtListing | src/tidydir/categories.py:41-141 | `.odt` is listed under Documents and Ebooks only |
| TableMap.VhdListing | src/tidydir/categories.py:94-191 | `.vhd` is listed under Disk Images, VMs and Code |
| TableMap.DmgListing | src/tidydir/categories.py:32-94 | `.dmg` is listed under Applications and Disk Images only |
| TableMap.WebmListing | src/tidydir/categories.py:73-113 | `.webm` is listed under Videos and Audio only |
| TableMap.OddKeysListing | src/tidydir/categories.py:186-202 | the mixed-case literals are in Code; `.m` is in Scripts and Code; `.tar.gz` is in Archives; `.vbproj.user` is in Code |
| TableMap.EmptyListing | src/tidydir/categories.py:30-204 | no category lists the empty extension |
| Paths.LastDot | src/tidydir/organizer.py:135 | the index of the last dot of a name, or -1 when there is none |
| Paths.StemSuffixSplit | src/tidydir/organizer.py:223-224 | stem and suffix put together give the name back |
| Paths.SuffixShape | src/tidydir/organizer.py:224 | a suffix is empty or one dot followed by non-dots, and a name with a suffix has a non-empty stem |
| Paths.Join | src/tidydir/organizer.py:219 | `base / name` has parent `base` and name `name` |
| Text.LowerIsLower | src/tidydir/organizer.py:83 | `lower()` yields lower case, leaves lower-case strings alone and is idempotent |
| Text.LowerKeepsDots | src/tidydir/organizer.py:135 | lower-casing creates and removes no dot |
| Text.StripTrims | src/tidydir/cli.py:75 | `strip()` keeps the part between the leading and the trailing whitespace, removes only whitespace, and its result neither starts nor ends with whitespace |
| Text.StripLeftTrims | src/tidydir/cli.py:75 | the leading half of `strip()` removes exactly the leading whitespace |
| Text.StripRightTrims | src/tidydir/cli.py:75 | the trailing half of `strip()` removes exactly the trailing whitespace |
| Text.ParseDecimalOfDecimal | src/tidydir/organizer.py:227 | the rendering of the counter in `f"{stem}_{counter}{suffix}"` reads back as the counter |
| Text.DecimalInjective | src/tidydir/organizer.py:227 | different counters render differently |
| FileSystem.Stat | src/tidydir/organizer.py:149-153 | `stat` yields a time exactly when the model's metadata holds one |
| FileSystem.MakeDirs | src/tidydir/organizer.py:359 | `mkdir(parents=True, exist_ok=True)`: an existing directory is accepted unchanged, and a file in its place raises exactly `FileExistsError`; on success the path is a directory, files are untouched, and every new directory is an ancestor of the path |
| FileSystem.Move | src/tidydir/organizer.py:373 | a move succeeds exactly when the source is a file, the target's directory exists, both directories are writable, the target is not a directory and the move is not refused; the source is then replaced by the target (the directory-target and copy-fallback cases are under Left out) |
| FileSystem.MoveCount | src/tidydir/organizer.py:373 | a move to a free target keeps the number of files, and one onto an existing file loses one |
| Resolver.BaseDir | src/tidydir/organizer.py:213-217 | the base directory is named after the category and lies under `archive_<date>` exactly for old files |
| Resolver.CandidateNameInjective | src/tidydir/organizer.py:226-228 | the numbered candidates are all different, so probing never revisits a name |
| Resolver.XJpgParts | src/tidydir/organizer.py:223-227 | `x.jpg` has stem `x` and suffix `.jpg`, and its first renaming is `x_1.jpg` |
| Resolver.FirstFree | src/tidydir/organizer.py:226-228 | the probing loop ends: the least counter at or after k whose candidate does not exist |
| Resolver.OccupiedShrinks | src/tidydir/organizer.py:226-228 | each taken candidate passed leaves fewer taken candidates ahead, which makes the probing terminate |
| Resolver.TargetPath | src/tidydir/organizer.py:219-231 | the chosen target does not exist on disk |
| Resolver.TargetPathParent | src/tidydir/organizer.py:219-227 | the chosen target lies directly in the base directory |
| Resolver.TargetPathIsLeastFree | src/tidydir/organizer.py:219-231 | the natural target when it is free, otherwise the numbered candidate with the least counter not on disk |
| Plans.PlanOfShape | src/tidydir/organizer.py:241-255 | the plan is well formed: keys are the targets' directories in order of first use, and each list holds the operations filed there in their order |
| Plans.PlanOfEmpty | src/tidydir/organizer.py:241-257 | the plan is empty exactly when there are no operations |
| Plans.AddValid | src/tidydir/organizer.py:255 | filing an operation keeps the plan well formed |
| Plans.AddSchedule | src/tidydir/organizer.py:255 | filing an operation adds exactly it to the execution order and one to the total |
| Plans.ScheduleIsPermutation | src/tidydir/organizer.py:362-371 | walking `operations.values()` visits every operation exactly once, and the total counts them |
| Plans.ScheduleOfAppend | src/tidydir/organizer.py:255 | appending to an existing key's list adds exactly that operation to the walk |
| Plans.ScheduleOfOther | src/tidydir/organizer.py:370-371 | a list outside the walked keys does not affect the walk or the total |
| Plans.AddNewKey | src/tidydir/organizer.py:255 | a new key puts its operation at the end of the walk |
| Execution.MakeAll | src/tidydir/organizer.py:358-359 | the directory loop keeps the disk valid and its files unchanged, and without failure every directory exists |
| Execution.MakeAllStops | src/tidydir/organizer.py:358-359 | after the first `mkdir` failure nothing more is attempted |
| Execution.Step | src/tidydir/organizer.py:372-383 | one move either counts as moved or adds one error, and it counts as moved exactly when `shutil.move` succeeds |
| Execution.RunMoves | src/tidydir/organizer.py:370-383 | every operation is attempted: moved plus errors is the number of operations, and no directory changes |
| Execution.IndependentOf | src/tidydir/organizer.py:246-255 | operations with distinct existing sources and free targets form an independent batch |
| Execution.IndependentPermutation | src/tidydir/organizer.py:370-371 | walking the batch in another order keeps it independent |
| Execution.ErrorsNameSources | src/tidydir/organizer.py:382-383 | every recorded error names the source of an attempted operation |
| Execution.FailedSourcesStay | src/tidydir/organizer.py:382-383 | a failed move leaves its file in place and does not stop later moves from finding their sources |
| Execution.DistinctTargetsKeepFiles | src/tidydir/organizer.py:370-383 | a batch without shared targets loses no file, whichever moves fail |
| Execution.CollisionLosesFile | src/tidydir/organizer.py:373 | two successful moves onto one target lose a file |
| Execution.RunMovesSnoc | src/tidydir/organizer.py:370-383 | one more operation is one more step of the loop |
| Lists.List.Append | src/tidydir/organizer.py:229 | `list.append` adds the element at the end |
| Lists.List.Clear | src/tidydir/organizer.py:244 | `list.clear` empties the list in place |
| Organizer.RegularFiles | src/tidydir/organizer.py:192-194 | the comprehension keeps exactly the walk's entries that are regular files |
| Organizer.RegularFilesDistinct | src/tidydir/organizer.py:192-194 | a walk without repeats gives files without repeats |
| Organizer.MissingSaysSo | src/tidydir/organizer.py:166 | the missing-source message says "does not exist" |
| Organizer.IssuesDiffer | src/tidydir/organizer.py:166-177 | the four issue messages are pairwise different |
| Organizer.FileOrganizer.constructor | src/tidydir/organizer.py:58-69 | target defaults to source, cutoff is `days` before now, the map is built from the table, and both lists start empty |
| Organizer.FileOrganizer.CheckPermissions | src/tidydir/organizer.py:155-179 | at most two issues, and none exactly when the source is readable and the target (or, if missing, its parent) is writable |
| Organizer.FileOrganizer.CheckPermissionsCases | src/tidydir/organizer.py:164-177 | each message appears exactly under its own condition; a missing source comes first and says it does not exist |
| Organizer.FileOrganizer.GetFilesToOrganize | src/tidydir/organizer.py:181-199 | the regular files among the walk's entries, and none when the walk raises |
| Organizer.FileOrganizer.FilesToOrganizeAreInScope | src/tidydir/organizer.py:190-194 | with a real walk: exactly the regular files directly in, or with subdirectories anywhere below, the source, each once |
| Organizer.FileOrganizer.OperationForFacts | src/tidydir/organizer.py:246-253 | each operation moves its file to a free path directly in the directory chosen by category and age |
| Organizer.FileOrganizer.Operations | src/tidydir/organizer.py:246-253 | one operation per file |
| Organizer.FileOrganizer.OperationsSources | src/tidydir/organizer.py:246-253 | the operations' sources are the files, in order |
| Organizer.FileOrganizer.OperationsFacts | src/tidydir/organizer.py:246-253 | every operation moves one of the files to a path not on disk |
| Organizer.FileOrganizer.GetTargetPath | src/tidydir/organizer.py:201-231 | the loop returns the least free candidate, which lies in the base directory and is not on disk; one conflict is recorded exactly when the natural target is taken |
| Organizer.FileOrganizer.Preview | src/tidydir/organizer.py:233-257 | the plan is the operations of the files found, filed by target directory; conflicts are reset, then hold one entry per renamed file |
| Organizer.FileOrganizer.PreviewCounts | src/tidydir/organizer.py:240-257 | the plan is empty exactly when no file is found, and its total is the number of files |
| Organizer.FileOrganizer.CreateDirectories | src/tidydir/organizer.py:358-359 | the directory loop computes `MakeAll`: creation in plan order, stopping at the first failure |
| Organizer.FileOrganizer.MoveAll | src/tidydir/organizer.py:362-385 | errors are reset, then the move loop over the plan's groups computes `RunMoves` over the plan's walk |
| Organizer.FileOrganizer.MoveGroup | src/tidydir/organizer.py:371-385 | the inner loop over one group extends the run by exactly that group |
| Organizer.FileOrganizer.MoveOne | src/tidydir/organizer.py:372-383 | one attempt: a successful `shutil.move` is counted and changes the disk; a failure appends `(source, error)` to the organizer's errors and leaves the disk as it was |
| Organizer.FileOrganizer.Execute | src/tidydir/organizer.py:345-398 | an empty plan gives a zero result with fresh lists; a `mkdir` failure propagates; otherwise the result counts the moves and holds the organizer's own lists |
| Organizer.FileOrganizer.ScheduleIndependent | src/tidydir/organizer.py:352-371 | the plan walked by `execute` moves each found file once, from where it is, to a path that is not a file |
| Organizer.FileOrganizer.ExecuteCreatesDirectories | src/tidydir/organizer.py:357-371 | after the directory loop every planned directory exists, and moving files keeps them |
| Organizer.FileOrganizer.ExecuteCounts | src/tidydir/organizer.py:362-397 | moved plus errors equals the total, which is the number of files found |
| Organizer.FileOrganizer.ExecuteKeepsFailedSources | src/tidydir/organizer.py:382-383 | every reported file is one of the files found and is still on disk afterwards |
| Organizer.FileOrganizer.SameNameCollision | src/tidydir/organizer.py:219-231 | two same-named files bound for one directory get the same target, and when both moves succeed a file is lost |
| Organizer.FileOrganizer.AlreadyOrganizedIsRenamed | src/tidydir/organizer.py:190-231 | with the target inside the source and subdirectories included, `Images/x.jpg` is found again and renamed to `Images/x_1.jpg` |
| Duplicates.RowAt | scripts/fix_duplicate_extensions.py:19-23 | the inner loop sights the set's elements in iteration order |
| Duplicates.FindDuplicates | scripts/fix_duplicate_extensions.py:13-25 | the nested loop returns exactly the keep-first report of the loop's sightings |
| Duplicates.RepeatsWithinCategories | scripts/fix_duplicate_extensions.py:41-47 | the within-category check never reports anything, because a set yields each element once |
| Duplicates.FirstOwnersKeys | scripts/fix_duplicate_extensions.py:20-23 | an extension is entered in `all_extensions` exactly when it has been sighted |
| Duplicates.FirstOwnersFirst | scripts/fix_duplicate_extensions.py:20-23 | an entered extension keeps the category of its first sighting |
| Duplicates.DuplicatesWitnessed | scripts/fix_duplicate_extensions.py:20-21 | every triple pairs the first sighting of its extension with a later one |
| Duplicates.CountPerSighting | scripts/fix_duplicate_extensions.py:20-21 | each sighting of an extension after the first adds one triple about it |
| Duplicates.SightingsFaithful | scripts/fix_duplicate_extensions.py:18-19 | the loop sights only extensions an entry lists, under that entry's category |
| Duplicates.SightingsOrdered | scripts/fix_duplicate_extensions.py:18-19 | the loop sights entry by entry, each extension of an entry once |
| Duplicates.SightingsCover | scripts/fix_duplicate_extensions.py:18-19 | the loop sights every extension of every entry |
| Duplicates.OccurrencesListers | scripts/fix_duplicate_extensions.py:18-19 | an extension is sighted once per entry that lists it |
| Duplicates.DuplicatesSound | scripts/fix_duplicate_extensions.py:13-25 | every triple names an extension listed, as written, by two entries: the first one listing it and a later one |
| Duplicates.DuplicateCount | scripts/fix_duplicate_extensions.py:13-25 | an extension listed by n > 0 entries is reported n - 1 times, and an unlisted one never |
| Duplicates.ListersTwo | scripts/fix_duplicate_extensions.py:18-19 | two entries listing an extension count it at least twice |
| Duplicates.NoDuplicatesIffDisjoint | scripts/fix_duplicate_extensions.py:32-37 | the report is empty exactly when the categories' sets are pairwise disjoint |
| Duplicates.FirstOwnerIsFirstLister | scripts/fix_duplicate_extensions.py:20-23 | `all_extensions` gives an extension the first category listing it |
| Duplicates.UnlistedNotEntered | scripts/fix_duplicate_extensions.py:20-23 | an extension no entry lists is never entered |
| Duplicates.FirstOwnerVersusLastWins | scripts/fix_duplicate_extensions.py:20-23 | for an extension spelled one way: the script keeps the first category listing it, the organizer's map the last |
| Duplicates.CaseSensitiveComparison | scripts/fix_duplicate_extensions.py:20 | the script compares extensions as written: `.m` and `.M` under two categories are not reported, although the organizer's map merges them |
| Cli.ConfirmAnswerMeans | src/tidydir/cli.py:74-81 | the first recognised answer decides, every earlier answer is unrecognised, and `None` means none was recognised |
| Cli.ConfirmAction | src/tidydir/cli.py:64-81 | the loop returns the first recognised answer and the number of prompts, or runs out of answers |
| Cli.AcceptedWords | src/tidydir/cli.py:75-79 | `yes` and `y` mean yes; `no` and `n` mean no |
| Cli.PaddedUpperYes | src/tidydir/cli.py:75-77 | case and surrounding spaces are ignored: `" YES "` means yes |
| Cli.OtherWords | src/tidydir/cli.py:75-81 | `invalid` and `maybe` are not recognised |
| Cli.ConfirmExamples | src/tidydir/cli.py:74-81 | the tests' answers: each accepted word decides at once, an invalid answer is followed by another prompt, and `maybe` alone never decides |
| Cli.StripWord | src/tidydir/cli.py:75 | a lower-case word without surrounding spaces is its own normalised form |
| Cli.BadSourceExitsEarly | src/tidydir/cli.py:89-97 | a missing source, or one that is not a directory, returns 1 before the organizer is built |
| Cli.RaisingStepExits | src/tidydir/cli.py:99-126 | an exception while building the organizer or previewing returns 1, and neither confirmation nor execution follows |
| Cli.IssuesSkipPreview | src/tidydir/cli.py:112-126 | permission issues return 1 before the preview |
| Cli.NoExecutionExitsZero | src/tidydir/cli.py:128-141 | an empty plan, `--preview` or a declined confirmation returns 0 without executing |
| Cli.ExecutionExitCode | src/tidydir/cli.py:143-154 | once executing: an interrupt returns 130, another exception 1, and otherwise 0 exactly when every planned file moved |
| Cli.ExecuteOnlyAfterYes | src/tidydir/cli.py:84-145 | execution happens only after every check passed, the plan is non-empty, `--preview` is off and the answer was yes |
| Cli.ExitCodes | src/tidydir/cli.py:84-154 | `main` returns 0, 1 or 130, and 130 only for an interrupt during execution |

## Left out

- Logging is not modelled: `_setup_logging`, `close_logging`, `__del__` and every `logger` call. Neither is printing: `print_preview`, the progress lines and the error summary of `execute`, and the messages of `main` and `confirm_action`. Output does not affect any decision.
- Symbolic links, `Path.resolve()` and path normalisation are not modelled: every path is an absolute list of components.
- Timestamps are integers in seconds. The clock is a parameter: `now` for the constructor, and the archive date of the i-th `get_target_path` call for the rest. `strftime` formatting is not modelled: the date is an opaque string.
- `os.access` is modelled by permission sets on the model disk. `check_permissions` is not modelled as raising.
- Operating-system failures are modelled as an explicit set of sources whose move is refused, besides the conditions `shutil.move` checks itself. `shutil.move`'s cross-device copying is not modelled.
- FileSystem.Move: two behaviours of `shutil.move` are not modelled. (1) A target that is a directory is an error in the model; `shutil.move` would move the file into it as `dst/<name>`. This cannot arise from `execute`: every target comes from probing, which skips any path that exists when the plan is made (`Resolver.TargetPath`). (2) When `os.rename` fails, `shutil.move` falls back to `copy2` then `os.unlink(src)`. If the source directory is not writable but the target's is, the copy is written, the unlink raises, and `execute` records an error while a copy stays at the target. `check_permissions` checks only read access on the source, so a read-only source directory reaches this case. The model leaves the disk unchanged on every failed move, so Execution.Step, Organizer.FileOrganizer.MoveOne and Execution.DistinctTargetsKeepFiles ("the file count is unchanged") do not describe the leftover copies in that case.
- Plans: the plan is keyed by the directory as a list of components, while the code keys it by `str(directory)`. The two agree when no component is empty or contains `/`, which holds for the paths the organizer builds; `Paths.Render` is not proved injective.
- Text.Lower and Text.Strip cover ASCII only: Python's Unicode case mapping and Unicode whitespace are not modelled.
- The organizer takes the category table as a constructor parameter. The program always passes `CATEGORY_EXTENSIONS` (`Categories.Table()`).
- TableMap: the map of the shipped table is not derived in one lemma, because the literal table makes that proof too large. For each extension, a Listing lemma gives its categories, DeclaredWellCased gives the casing, and the matching Wins lemma gives its category.
- Duplicates.FindDuplicates: the concrete report for the shipped table is not derived, for the same reason. DuplicatesSound, DuplicateCount and NoDuplicatesIffDisjoint characterise it for any table.
- Duplicates.DuplicateCount: does not state in which order the triples come. They follow the loop's sightings, which DuplicatesWitnessed relates to the first sighting.
- Python's iteration order of a `set` is not modelled: the order of each category's set is a parameter (`order`), and the extension-map method picks elements in an arbitrary order.
- Cli: argument parsing (`create_parser`, `--version`, `--help`) is not modelled. The parsed options and every organizer call's outcome are parameters of `Cli.Run`.
- Cli: an `input()` that raises (end of input, interrupt at the prompt) is modelled as `Uncaught`, because `main` does not catch it.
- Cli.Main: the path checks run before the organizer resolves its directories, as in the code. The organizer's own checks are `Organizer.FileOrganizer.CheckPermissions`.
- The other scripts under scripts/ and the tests are not part of this model.
