/**
 * What `_build_extension_map` (src/tidydir/organizer.py:78-84) makes of the
 * table of src/tidydir/categories.py. The first half holds for any sets the
 * sixteen categories might be declared with: the table's shape, the later
 * declaration winning, and how the mixed-case, empty and multi-dot keys
 * behave. The second half lists, for the declared sets, which categories
 * hold each extension the tests exercise and each extension declared more
 * than once; with the first half these say where the map sends them.
 */
module TableMap {
  import opened Text
  import opened Paths
  import opened Categories
  import opened TableFacts
  import opened Classifier

  /** The lower-case forms of the four mixed-case literals. */
  lemma MixedLowered()
    ensures Lower(".S") == ".s" && Lower(".M") == ".m"
    ensures Lower(".BUILD") == ".build" && Lower(".WORKSPACE") == ".workspace"
  {
    assert Lower(".S") == [LowerChar('.'), LowerChar('S')];
    assert Lower(".M") == [LowerChar('.'), LowerChar('M')];
    assert Lower(".BUILD") == [LowerChar('.'), LowerChar('B'), LowerChar('U'), LowerChar('I'),
                               LowerChar('L'), LowerChar('D')];
    assert Lower(".WORKSPACE") == [LowerChar('.'), LowerChar('W'), LowerChar('O'), LowerChar('R'),
                                   LowerChar('K'), LowerChar('S'), LowerChar('P'), LowerChar('A'),
                                   LowerChar('C'), LowerChar('E')];
  }

  /** In a well-cased set, a lower-case extension other than the lowered
      mixed-case ones is listed in lowered form exactly when it is listed
      as written. */
  lemma LowerSetWellCased(exts: set<string>, k: string)
    requires WellCased(exts) && IsLower(k)
    requires k != ".s" && k != ".m" && k != ".build" && k != ".workspace"
    ensures k in LowerSet(exts) <==> k in exts
  {
    LowerIsLower(k);
    if k in LowerSet(exts) {
      var e :| e in exts && Lower(e) == k;
      if IsLower(e) {
        LowerIsLower(e);
      } else {
        MixedLowered();
      }
    }
  }

  /** Only the empty literal lowers to the empty key. */
  lemma EmptyLowered(exts: set<string>)
    ensures "" in LowerSet(exts) <==> "" in exts
  {
    if "" in LowerSet(exts) {
      var e :| e in exts && Lower(e) == "";
      assert |e| == 0;
    }
    if "" in exts {
      assert Lower("") == "";
    }
  }

  /** Whatever sets it holds, the table has one entry per category other
      than `Files`, at the category's position in the enum. */
  lemma TableOfShape(sets: ExtensionSets)
    ensures |TableOf(sets)| == 16
    ensures forall i :: 0 <= i < |TableOf(sets)| ==>
              TableOf(sets)[i].category != Files && Position(TableOf(sets)[i].category) == i
              && TableOf(sets)[i].extensions == SetOf(sets, TableOf(sets)[i].category)
    ensures forall c :: c != Files ==> Position(c) < 16 && TableOf(sets)[Position(c)].category == c
  {
    var t := TableOf(sets);
    forall i | 0 <= i < |t|
      ensures t[i].category != Files && Position(t[i].category) == i
              && t[i].extensions == SetOf(sets, t[i].category)
    {
      assert i == 0 || i == 1 || i == 2 || i == 3 || i == 4 || i == 5 || i == 6 || i == 7
          || i == 8 || i == 9 || i == 10 || i == 11 || i == 12 || i == 13 || i == 14 || i == 15;
    }
    forall c | c != Files
      ensures Position(c) < 16 && t[Position(c)].category == c
    {
      match c
      case Applications => case Archives => case Documents => case Fonts =>
      case Images => case Scripts => case Text => case Videos =>
      case ThreeD => case DiskImages => case VMs => case Audio =>
      case Ebooks => case Spreadsheets => case Presentations => case Code =>
    }
  }

  /** The keys of the map are the lowered extensions of the categories
      other than `Files`. */
  lemma KeysOfTable(sets: ExtensionSets, k: string)
    ensures k in ExtensionMapOf(TableOf(sets)) <==>
            exists c :: c != Files && k in LowerSet(SetOf(sets, c))
  {
    var t := TableOf(sets);
    TableOfShape(sets);
    ExtensionMapKeys(t, k);
    if k in ExtensionMapOf(t) {
      var i :| 0 <= i < |t| && ListsLowered(t, i, k);
      assert t[i].category != Files && k in LowerSet(SetOf(sets, t[i].category));
    }
    if exists c :: c != Files && k in LowerSet(SetOf(sets, c)) {
      var c :| c != Files && k in LowerSet(SetOf(sets, c));
      assert ListsLowered(t, Position(c), k);
    }
  }

  /** The later declaration wins, stated over categories: a key lands on
      the category declared last among those listing it. */
  lemma LastDeclaredWins(sets: ExtensionSets, k: string, c: Category)
    requires c != Files && k in LowerSet(SetOf(sets, c))
    requires forall d :: Position(c) < Position(d) < 16 ==> k !in LowerSet(SetOf(sets, d))
    ensures k in ExtensionMapOf(TableOf(sets)) && ExtensionMapOf(TableOf(sets))[k] == c
  {
    var t := TableOf(sets);
    TableOfShape(sets);
    var i := Position(c);
    assert ListsLowered(t, i, k);
    forall j | i < j < |t|
      ensures !ListsLowered(t, j, k)
    {
      assert Position(t[j].category) == j;
    }
    ExtensionMapLastWins(t, k, i);
  }

  /** The same for a lower-case key that the well-cased sets list as
      written. */
  lemma LastDeclaredWinsCased(sets: ExtensionSets, k: string, c: Category)
    requires IsLower(k) && k != ".s" && k != ".m" && k != ".build" && k != ".workspace"
    requires c != Files && k in SetOf(sets, c)
    requires forall d :: Position(c) <= Position(d) < 16 ==> WellCased(SetOf(sets, d))
    requires forall d :: Position(c) < Position(d) < 16 ==> k !in SetOf(sets, d)
    ensures k in ExtensionMapOf(TableOf(sets)) && ExtensionMapOf(TableOf(sets))[k] == c
  {
    forall d | Position(c) <= Position(d) < 16
      ensures k in LowerSet(SetOf(sets, d)) <==> k in SetOf(sets, d)
    {
      LowerSetWellCased(SetOf(sets, d), k);
    }
    LastDeclaredWins(sets, k, c);
  }

  /** No key maps to `Files`, whatever the sets. */
  lemma FilesIsNoValueOf(sets: ExtensionSets)
    ensures forall k :: k in ExtensionMapOf(TableOf(sets)) ==> ExtensionMapOf(TableOf(sets))[k] != Files
  {
    TableOfShape(sets);
    ExtensionMapValues(TableOf(sets));
  }

  /** A lower-case key that `Documents` lists, and no category declared after it, lands on `Documents`. */
  lemma DocumentsWins(sets: ExtensionSets, k: string)
    requires IsLower(k) && k != ".s" && k != ".m" && k != ".build" && k != ".workspace"
    requires k in sets.documents && WellCased(sets.documents)
    requires k !in sets.fonts && WellCased(sets.fonts)
    requires k !in sets.images && WellCased(sets.images)
    requires k !in sets.scripts && WellCased(sets.scripts)
    requires k !in sets.text && WellCased(sets.text)
    requires k !in sets.videos && WellCased(sets.videos)
    requires k !in sets.threeD && WellCased(sets.threeD)
    requires k !in sets.diskImages && WellCased(sets.diskImages)
    requires k !in sets.vMs && WellCased(sets.vMs)
    requires k !in sets.audio && WellCased(sets.audio)
    requires k !in sets.ebooks && WellCased(sets.ebooks)
    requires k !in sets.spreadsheets && WellCased(sets.spreadsheets)
    requires k !in sets.presentations && WellCased(sets.presentations)
    requires k !in sets.code && WellCased(sets.code)
    ensures k in ExtensionMapOf(TableOf(sets)) && ExtensionMapOf(TableOf(sets))[k] == Documents
  {
    forall d | Position(Documents) <= Position(d) < 16
      ensures WellCased(SetOf(sets, d)) && (d != Documents ==> k !in SetOf(sets, d))
    {
      match d
      case Documents =>
      case Fonts =>
      case Images =>
      case Scripts =>
      case Text =>
      case Videos =>
      case ThreeD =>
      case DiskImages =>
      case VMs =>
      case Audio =>
      case Ebooks =>
      case Spreadsheets =>
      case Presentations =>
      case Code =>
      case _ => assert false;
    }
    LastDeclaredWinsCased(sets, k, Documents);
  }

  /** A lower-case key that `Images` lists, and no category declared after it, lands on `Images`. */
  lemma ImagesWins(sets: ExtensionSets, k: string)
    requires IsLower(k) && k != ".s" && k != ".m" && k != ".build" && k != ".workspace"
    requires k in sets.images && WellCased(sets.images)
    requires k !in sets.scripts && WellCased(sets.scripts)
    requires k !in sets.text && WellCased(sets.text)
    requires k !in sets.videos && WellCased(sets.videos)
    requires k !in sets.threeD && WellCased(sets.threeD)
    requires k !in sets.diskImages && WellCased(sets.diskImages)
    requires k !in sets.vMs && WellCased(sets.vMs)
    requires k !in sets.audio && WellCased(sets.audio)
    requires k !in sets.ebooks && WellCased(sets.ebooks)
    requires k !in sets.spreadsheets && WellCased(sets.spreadsheets)
    requires k !in sets.presentations && WellCased(sets.presentations)
    requires k !in sets.code && WellCased(sets.code)
    ensures k in ExtensionMapOf(TableOf(sets)) && ExtensionMapOf(TableOf(sets))[k] == Images
  {
    forall d | Position(Images) <= Position(d) < 16
      ensures WellCased(SetOf(sets, d)) && (d != Images ==> k !in SetOf(sets, d))
    {
      match d
      case Images =>
      case Scripts =>
      case Text =>
      case Videos =>
      case ThreeD =>
      case DiskImages =>
      case VMs =>
      case Audio =>
      case Ebooks =>
      case Spreadsheets =>
      case Presentations =>
      case Code =>
      case _ => assert false;
    }
    LastDeclaredWinsCased(sets, k, Images);
  }

  /** A lower-case key that `DiskImages` lists, and no category declared after it, lands on `DiskImages`. */
  lemma DiskImagesWins(sets: ExtensionSets, k: string)
    requires IsLower(k) && k != ".s" && k != ".m" && k != ".build" && k != ".workspace"
    requires k in sets.diskImages && WellCased(sets.diskImages)
    requires k !in sets.vMs && WellCased(sets.vMs)
    requires k !in sets.audio && WellCased(sets.audio)
    requires k !in sets.ebooks && WellCased(sets.ebooks)
    requires k !in sets.spreadsheets && WellCased(sets.spreadsheets)
    requires k !in sets.presentations && WellCased(sets.presentations)
    requires k !in sets.code && WellCased(sets.code)
    ensures k in ExtensionMapOf(TableOf(sets)) && ExtensionMapOf(TableOf(sets))[k] == DiskImages
  {
    forall d | Position(DiskImages) <= Position(d) < 16
      ensures WellCased(SetOf(sets, d)) && (d != DiskImages ==> k !in SetOf(sets, d))
    {
      match d
      case DiskImages =>
      case VMs =>
      case Audio =>
      case Ebooks =>
      case Spreadsheets =>
      case Presentations =>
      case Code =>
      case _ => assert false;
    }
    LastDeclaredWinsCased(sets, k, DiskImages);
  }

  /** A lower-case key that `Audio` lists, and no category declared after it, lands on `Audio`. */
  lemma AudioWins(sets: ExtensionSets, k: string)
    requires IsLower(k) && k != ".s" && k != ".m" && k != ".build" && k != ".workspace"
    requires k in sets.audio && WellCased(sets.audio)
    requires k !in sets.ebooks && WellCased(sets.ebooks)
    requires k !in sets.spreadsheets && WellCased(sets.spreadsheets)
    requires k !in sets.presentations && WellCased(sets.presentations)
    requires k !in sets.code && WellCased(sets.code)
    ensures k in ExtensionMapOf(TableOf(sets)) && ExtensionMapOf(TableOf(sets))[k] == Audio
  {
    forall d | Position(Audio) <= Position(d) < 16
      ensures WellCased(SetOf(sets, d)) && (d != Audio ==> k !in SetOf(sets, d))
    {
      match d
      case Audio =>
      case Ebooks =>
      case Spreadsheets =>
      case Presentations =>
      case Code =>
      case _ => assert false;
    }
    LastDeclaredWinsCased(sets, k, Audio);
  }

  /** A lower-case key that `Ebooks` lists, and no category declared after it, lands on `Ebooks`. */
  lemma EbooksWins(sets: ExtensionSets, k: string)
    requires IsLower(k) && k != ".s" && k != ".m" && k != ".build" && k != ".workspace"
    requires k in sets.ebooks && WellCased(sets.ebooks)
    requires k !in sets.spreadsheets && WellCased(sets.spreadsheets)
    requires k !in sets.presentations && WellCased(sets.presentations)
    requires k !in sets.code && WellCased(sets.code)
    ensures k in ExtensionMapOf(TableOf(sets)) && ExtensionMapOf(TableOf(sets))[k] == Ebooks
  {
    forall d | Position(Ebooks) <= Position(d) < 16
      ensures WellCased(SetOf(sets, d)) && (d != Ebooks ==> k !in SetOf(sets, d))
    {
      match d
      case Ebooks =>
      case Spreadsheets =>
      case Presentations =>
      case Code =>
      case _ => assert false;
    }
    LastDeclaredWinsCased(sets, k, Ebooks);
  }

  /** A lower-case key that `Code` lists, and no category declared after it, lands on `Code`. */
  lemma CodeWins(sets: ExtensionSets, k: string)
    requires IsLower(k) && k != ".s" && k != ".m" && k != ".build" && k != ".workspace"
    requires k in sets.code && WellCased(sets.code)
    ensures k in ExtensionMapOf(TableOf(sets)) && ExtensionMapOf(TableOf(sets))[k] == Code
  {
    forall d | Position(Code) <= Position(d) < 16
      ensures WellCased(SetOf(sets, d)) && (d != Code ==> k !in SetOf(sets, d))
    {
      match d
      case Code =>
      case _ => assert false;
    }
    LastDeclaredWinsCased(sets, k, Code);
  }

  /** The four mixed-case literals reach the map only lower-cased, and
      land on `Code`, the category declared last; no key is written in
      upper case. */
  lemma MixedCaseKeys(sets: ExtensionSets)
    requires ".S" in sets.code && ".M" in sets.code && ".BUILD" in sets.code && ".WORKSPACE" in sets.code
    ensures ".s" in ExtensionMapOf(TableOf(sets)) && ExtensionMapOf(TableOf(sets))[".s"] == Code
    ensures ".m" in ExtensionMapOf(TableOf(sets)) && ExtensionMapOf(TableOf(sets))[".m"] == Code
    ensures ".build" in ExtensionMapOf(TableOf(sets)) && ExtensionMapOf(TableOf(sets))[".build"] == Code
    ensures ".workspace" in ExtensionMapOf(TableOf(sets)) && ExtensionMapOf(TableOf(sets))[".workspace"] == Code
    ensures ".S" !in ExtensionMapOf(TableOf(sets)) && ".M" !in ExtensionMapOf(TableOf(sets)) && ".BUILD" !in ExtensionMapOf(TableOf(sets)) && ".WORKSPACE" !in ExtensionMapOf(TableOf(sets))
  {
    MixedLowered();
    LoweredCodeWins(sets, ".S");
    LoweredCodeWins(sets, ".M");
    LoweredCodeWins(sets, ".BUILD");
    LoweredCodeWins(sets, ".WORKSPACE");
    UpperNotKeys(TableOf(sets));
  }

  /** Code is declared last, so whatever it lists maps to Code in lowered
      form. */
  lemma LoweredCodeWins(sets: ExtensionSets, e: string)
    requires e in sets.code
    ensures Lower(e) in ExtensionMapOf(TableOf(sets)) && ExtensionMapOf(TableOf(sets))[Lower(e)] == Code
  {
    assert Lower(e) in LowerSet(SetOf(sets, Code));
    LastDeclaredWins(sets, Lower(e), Code);
  }

  /** The upper-case spellings are not keys of any table's map. */
  lemma UpperNotKeys(table: seq<Entry>)
    ensures ".S" !in ExtensionMapOf(table) && ".M" !in ExtensionMapOf(table)
    ensures ".BUILD" !in ExtensionMapOf(table) && ".WORKSPACE" !in ExtensionMapOf(table)
  {
    ExtensionMapKeysLower(table);
    assert IsUpperChar(".S"[1]) && IsUpperChar(".M"[1]) && IsUpperChar(".BUILD"[1]) && IsUpperChar(".WORKSPACE"[1]);
  }

  /** When no category lists the empty string, the empty string is not a
      key, so a file without a suffix is filed under `Files`. */
  lemma NoSuffixIsFiles(sets: ExtensionSets, p: Path)
    requires "" !in sets.applications
    requires "" !in sets.archives
    requires "" !in sets.documents
    requires "" !in sets.fonts
    requires "" !in sets.images
    requires "" !in sets.scripts
    requires "" !in sets.text
    requires "" !in sets.videos
    requires "" !in sets.threeD
    requires "" !in sets.diskImages
    requires "" !in sets.vMs
    requires "" !in sets.audio
    requires "" !in sets.ebooks
    requires "" !in sets.spreadsheets
    requires "" !in sets.presentations
    requires "" !in sets.code
    requires Suffix(Name(p)) == ""
    ensures "" !in ExtensionMapOf(TableOf(sets))
    ensures CategoryOf(ExtensionMapOf(TableOf(sets)), p) == Files
  {
    forall d | d != Files
      ensures "" !in LowerSet(SetOf(sets, d))
    {
      EmptyLowered(SetOf(sets, d));
    }
    KeysOfTable(sets, "");
    assert Lower("") == "";
  }

  /** A key with two dots, such as `.tar.gz` or `.vbproj.user`, is in the
      map when a category lists it, yet no file's lookup ever reaches it:
      a suffix holds a single dot. */
  lemma MultiDotKeysUnreachable(sets: ExtensionSets, k: string, c: Category, i: int, j: int, p: Path)
    requires c != Files && IsLower(k) && k in SetOf(sets, c)
    requires 0 <= i < j < |k| && k[i] == '.' && k[j] == '.'
    ensures k in ExtensionMapOf(TableOf(sets))
    ensures Lower(Suffix(Name(p))) != k
  {
    LowerIsLower(k);
    assert k in LowerSet(SetOf(sets, c));
    KeysOfTable(sets, k);
    MultiDotKeyUnreachable(k, i, j, p);
  }

  /** Every declared set is well cased: its literals are lower case but
      for the four mixed-case ones. */
  lemma DeclaredWellCased()
    ensures WellCased(Declared().applications)
    ensures WellCased(Declared().archives)
    ensures WellCased(Declared().documents)
    ensures WellCased(Declared().fonts)
    ensures WellCased(Declared().images)
    ensures WellCased(Declared().scripts)
    ensures WellCased(Declared().text)
    ensures WellCased(Declared().videos)
    ensures WellCased(Declared().threeD)
    ensures WellCased(Declared().diskImages)
    ensures WellCased(Declared().vMs)
    ensures WellCased(Declared().audio)
    ensures WellCased(Declared().ebooks)
    ensures WellCased(Declared().spreadsheets)
    ensures WellCased(Declared().presentations)
    ensures WellCased(Declared().code)
  {
    ApplicationsCase();
    ArchivesCase();
    DocumentsCase();
    FontsCase();
    ImagesCase();
    ScriptsCase();
    TextCase();
    VideosCase();
    ThreeDCase();
    DiskImagesCase();
    VMsCase();
    AudioCase();
    EbooksCase();
    SpreadsheetsCase();
    PresentationsCase();
    CodeCase();
  }

  /** Every category other than `Files` is declared with a non-empty set:
      each lists the extension shown. */
  lemma DeclaredNonEmpty()
    ensures ".exe" in Declared().applications
    ensures ".zip" in Declared().archives
    ensures ".pdf" in Declared().documents
    ensures ".ttf" in Declared().fonts
    ensures ".jpg" in Declared().images
    ensures ".py" in Declared().scripts
    ensures ".txt" in Declared().text
    ensures ".mp4" in Declared().videos
    ensures ".obj" in Declared().threeD
    ensures ".iso" in Declared().diskImages
    ensures ".ova" in Declared().vMs
    ensures ".mp3" in Declared().audio
    ensures ".epub" in Declared().ebooks
    ensures ".xls" in Declared().spreadsheets
    ensures ".ppt" in Declared().presentations
    ensures ".c" in Declared().code
  {
    ApplicationsProbes();
    ArchivesProbes();
    DocumentsProbes();
    FontsProbes();
    ImagesProbes();
    ScriptsProbes();
    TextProbes();
    VideosProbes();
    ThreeDProbes();
    DiskImagesProbes();
    VMsProbes();
    AudioProbes();
    EbooksProbes();
    SpreadsheetsProbes();
    PresentationsProbes();
    CodeProbes();
  }

  /** `.jpg` is declared in `Images` and in no other category, so `ImagesWins` applies to it. */
  lemma JpgListing()
    ensures ".jpg" !in Declared().applications
    ensures ".jpg" !in Declared().archives
    ensures ".jpg" !in Declared().documents
    ensures ".jpg" !in Declared().fonts
    ensures ".jpg" in Declared().images
    ensures ".jpg" !in Declared().scripts
    ensures ".jpg" !in Declared().text
    ensures ".jpg" !in Declared().videos
    ensures ".jpg" !in Declared().threeD
    ensures ".jpg" !in Declared().diskImages
    ensures ".jpg" !in Declared().vMs
    ensures ".jpg" !in Declared().audio
    ensures ".jpg" !in Declared().ebooks
    ensures ".jpg" !in Declared().spreadsheets
    ensures ".jpg" !in Declared().presentations
    ensures ".jpg" !in Declared().code
  {
    ApplicationsProbes();
    ArchivesProbes();
    DocumentsProbes();
    FontsProbes();
    ImagesProbes();
    ScriptsProbes();
    TextProbes();
    VideosProbes();
    ThreeDProbes();
    DiskImagesProbes();
    VMsProbes();
    AudioProbes();
    EbooksProbes();
    SpreadsheetsProbes();
    PresentationsProbes();
    CodeProbes();
  }

  /** `.pdf` is declared in `Documents` and in no other category, so `DocumentsWins` applies to it. */
  lemma PdfListing()
    ensures ".pdf" !in Declared().applications
    ensures ".pdf" !in Declared().archives
    ensures ".pdf" in Declared().documents
    ensures ".pdf" !in Declared().fonts
    ensures ".pdf" !in Declared().images
    ensures ".pdf" !in Declared().scripts
    ensures ".pdf" !in Declared().text
    ensures ".pdf" !in Declared().videos
    ensures ".pdf" !in Declared().threeD
    ensures ".pdf" !in Declared().diskImages
    ensures ".pdf" !in Declared().vMs
    ensures ".pdf" !in Declared().audio
    ensures ".pdf" !in Declared().ebooks
    ensures ".pdf" !in Declared().spreadsheets
    ensures ".pdf" !in Declared().presentations
    ensures ".pdf" !in Declared().code
  {
    ApplicationsProbes();
    ArchivesProbes();
    DocumentsProbes();
    FontsProbes();
    ImagesProbes();
    ScriptsProbes();
    TextProbes();
    VideosProbes();
    ThreeDProbes();
    DiskImagesProbes();
    VMsProbes();
    AudioProbes();
    EbooksProbes();
    SpreadsheetsProbes();
    PresentationsProbes();
    CodeProbes();
  }

  /** `.mp3` is declared in `Audio` and in no other category, so `AudioWins` applies to it. */
  lemma Mp3Listing()
    ensures ".mp3" !in Declared().applications
    ensures ".mp3" !in Declared().archives
    ensures ".mp3" !in Declared().documents
    ensures ".mp3" !in Declared().fonts
    ensures ".mp3" !in Declared().images
    ensures ".mp3" !in Declared().scripts
    ensures ".mp3" !in Declared().text
    ensures ".mp3" !in Declared().videos
    ensures ".mp3" !in Declared().threeD
    ensures ".mp3" !in Declared().diskImages
    ensures ".mp3" !in Declared().vMs
    ensures ".mp3" in Declared().audio
    ensures ".mp3" !in Declared().ebooks
    ensures ".mp3" !in Declared().spreadsheets
    ensures ".mp3" !in Declared().presentations
    ensures ".mp3" !in Declared().code
  {
    ApplicationsProbes();
    ArchivesProbes();
    DocumentsProbes();
    FontsProbes();
    ImagesProbes();
    ScriptsProbes();
    TextProbes();
    VideosProbes();
    ThreeDProbes();
    DiskImagesProbes();
    VMsProbes();
    AudioProbes();
    EbooksProbes();
    SpreadsheetsProbes();
    PresentationsProbes();
    CodeProbes();
  }

  /** `.flac` is declared in `DiskImages` and `Audio` and in no other category; `AudioWins` applies to it. */
  lemma FlacListing()
    ensures ".flac" !in Declared().applications
    ensures ".flac" !in Declared().archives
    ensures ".flac" !in Declared().documents
    ensures ".flac" !in Declared().fonts
    ensures ".flac" !in Declared().images
    ensures ".flac" !in Declared().scripts
    ensures ".flac" !in Declared().text
    ensures ".flac" !in Declared().videos
    ensures ".flac" !in Declared().threeD
    ensures ".flac" in Declared().diskImages
    ensures ".flac" !in Declared().vMs
    ensures ".flac" in Declared().audio
    ensures ".flac" !in Declared().ebooks
    ensures ".flac" !in Declared().spreadsheets
    ensures ".flac" !in Declared().presentations
    ensures ".flac" !in Declared().code
  {
    ApplicationsProbes();
    ArchivesProbes();
    DocumentsProbes();
    FontsProbes();
    ImagesProbes();
    ScriptsProbes();
    TextProbes();
    VideosProbes();
    ThreeDProbes();
    DiskImagesProbes();
    VMsProbes();
    AudioProbes();
    EbooksProbes();
    SpreadsheetsProbes();
    PresentationsProbes();
    CodeProbes();
  }

  /** `.odt` is declared in `Documents` and `Ebooks` and in no other category; `EbooksWins` applies to it. */
  lemma OdtListing()
    ensures ".odt" !in Declared().applications
    ensures ".odt" !in Declared().archives
    ensures ".odt" in Declared().documents
    ensures ".odt" !in Declared().fonts
    ensures ".odt" !in Declared().images
    ensures ".odt" !in Declared().scripts
    ensures ".odt" !in Declared().text
    ensures ".odt" !in Declared().videos
    ensures ".odt" !in Declared().threeD
    ensures ".odt" !in Declared().diskImages
    ensures ".odt" !in Declared().vMs
    ensures ".odt" !in Declared().audio
    ensures ".odt" in Declared().ebooks
    ensures ".odt" !in Declared().spreadsheets
    ensures ".odt" !in Declared().presentations
    ensures ".odt" !in Declared().code
  {
    ApplicationsProbes();
    ArchivesProbes();
    DocumentsProbes();
    FontsProbes();
    ImagesProbes();
    ScriptsProbes();
    TextProbes();
    VideosProbes();
    ThreeDProbes();
    DiskImagesProbes();
    VMsProbes();
    AudioProbes();
    EbooksProbes();
    SpreadsheetsProbes();
    PresentationsProbes();
    CodeProbes();
  }

  /** `.vhd` is declared in `DiskImages` and `VMs` and `Code` and in no other category; `CodeWins` applies to it. */
  lemma VhdListing()
    ensures ".vhd" !in Declared().applications
    ensures ".vhd" !in Declared().archives
    ensures ".vhd" !in Declared().documents
    ensures ".vhd" !in Declared().fonts
    ensures ".vhd" !in Declared().images
    ensures ".vhd" !in Declared().scripts
    ensures ".vhd" !in Declared().text
    ensures ".vhd" !in Declared().videos
    ensures ".vhd" !in Declared().threeD
    ensures ".vhd" in Declared().diskImages
    ensures ".vhd" in Declared().vMs
    ensures ".vhd" !in Declared().audio
    ensures ".vhd" !in Declared().ebooks
    ensures ".vhd" !in Declared().spreadsheets
    ensures ".vhd" !in Declared().presentations
    ensures ".vhd" in Declared().code
  {
    ApplicationsProbes();
    ArchivesProbes();
    DocumentsProbes();
    FontsProbes();
    ImagesProbes();
    ScriptsProbes();
    TextProbes();
    VideosProbes();
    ThreeDProbes();
    DiskImagesProbes();
    VMsProbes();
    AudioProbes();
    EbooksProbes();
    SpreadsheetsProbes();
    PresentationsProbes();
    CodeProbes();
  }

  /** `.dmg` is declared in `Applications` and `DiskImages` and in no other category; `DiskImagesWins` applies to it. */
  lemma DmgListing()
    ensures ".dmg" in Declared().applications
    ensures ".dmg" !in Declared().archives
    ensures ".dmg" !in Declared().documents
    ensures ".dmg" !in Declared().fonts
    ensures ".dmg" !in Declared().images
    ensures ".dmg" !in Declared().scripts
    ensures ".dmg" !in Declared().text
    ensures ".dmg" !in Declared().videos
    ensures ".dmg" !in Declared().threeD
    ensures ".dmg" in Declared().diskImages
    ensures ".dmg" !in Declared().vMs
    ensures ".dmg" !in Declared().audio
    ensures ".dmg" !in Declared().ebooks
    ensures ".dmg" !in Declared().spreadsheets
    ensures ".dmg" !in Declared().presentations
    ensures ".dmg" !in Declared().code
  {
    ApplicationsProbes();
    ArchivesProbes();
    DocumentsProbes();
    FontsProbes();
    ImagesProbes();
    ScriptsProbes();
    TextProbes();
    VideosProbes();
    ThreeDProbes();
    DiskImagesProbes();
    VMsProbes();
    AudioProbes();
    EbooksProbes();
    SpreadsheetsProbes();
    PresentationsProbes();
    CodeProbes();
  }

  /** `.webm` is declared in `Videos` and `Audio` and in no other category; `AudioWins` applies to it. */
  lemma WebmListing()
    ensures ".webm" !in Declared().applications
    ensures ".webm" !in Declared().archives
    ensures ".webm" !in Declared().documents
    ensures ".webm" !in Declared().fonts
    ensures ".webm" !in Declared().images
    ensures ".webm" !in Declared().scripts
    ensures ".webm" !in Declared().text
    ensures ".webm" in Declared().videos
    ensures ".webm" !in Declared().threeD
    ensures ".webm" !in Declared().diskImages
    ensures ".webm" !in Declared().vMs
    ensures ".webm" in Declared().audio
    ensures ".webm" !in Declared().ebooks
    ensures ".webm" !in Declared().spreadsheets
    ensures ".webm" !in Declared().presentations
    ensures ".webm" !in Declared().code
  {
    ApplicationsProbes();
    ArchivesProbes();
    DocumentsProbes();
    FontsProbes();
    ImagesProbes();
    ScriptsProbes();
    TextProbes();
    VideosProbes();
    ThreeDProbes();
    DiskImagesProbes();
    VMsProbes();
    AudioProbes();
    EbooksProbes();
    SpreadsheetsProbes();
    PresentationsProbes();
    CodeProbes();
  }

  /** The declared sets meet the conditions of `MixedCaseKeys`, `Scripts`
      lists `.m` as well, and of the two multi-dot keys `Archives` lists
      `.tar.gz` and `Code` lists `.vbproj.user`. */
  lemma OddKeysListing()
    ensures ".S" in Declared().code && ".M" in Declared().code
    ensures ".BUILD" in Declared().code && ".WORKSPACE" in Declared().code
    ensures ".m" in Declared().scripts && ".m" in Declared().code && ".s" in Declared().code
    ensures ".tar.gz" in Declared().archives && ".vbproj.user" in Declared().code
  {
    ScriptsProbes();
    ArchivesProbes();
    CodeProbes();
  }

  /** No category declares the empty string, so `NoSuffixIsFiles` applies. */
  lemma EmptyListing()
    ensures "" !in Declared().applications
    ensures "" !in Declared().archives
    ensures "" !in Declared().documents
    ensures "" !in Declared().fonts
    ensures "" !in Declared().images
    ensures "" !in Declared().scripts
    ensures "" !in Declared().text
    ensures "" !in Declared().videos
    ensures "" !in Declared().threeD
    ensures "" !in Declared().diskImages
    ensures "" !in Declared().vMs
    ensures "" !in Declared().audio
    ensures "" !in Declared().ebooks
    ensures "" !in Declared().spreadsheets
    ensures "" !in Declared().presentations
    ensures "" !in Declared().code
  {
    ApplicationsProbes();
    ArchivesProbes();
    DocumentsProbes();
    FontsProbes();
    ImagesProbes();
    ScriptsProbes();
    TextProbes();
    VideosProbes();
    ThreeDProbes();
    DiskImagesProbes();
    VMsProbes();
    AudioProbes();
    EbooksProbes();
    SpreadsheetsProbes();
    PresentationsProbes();
    CodeProbes();
  }
}
