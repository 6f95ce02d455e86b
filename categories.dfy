/**
 * The category enumeration and the extension table of
 * src/tidydir/categories.py, in the order in which they are declared.
 *
 * The table is kept exactly as written, including the extensions that it
 * lists under more than one category, the literals it repeats within one
 * category (a set display collapses them, as Python's set literal does) and
 * its mixed-case and multi-dot entries. Each category's set is the union of
 * its source lines, one set display per line; the larger categories are
 * split into parts of consecutive lines so that facts about them can be
 * established part by part (module TableFacts).
 */
module Categories {
  import opened Text

  /** `FileCategory`: sixteen categories and the default `Files`. */
  datatype Category =
      Applications
    | Archives
    | Documents
    | Fonts
    | Images
    | Scripts
    | Text
    | Videos
    | ThreeD
    | DiskImages
    | VMs
    | Audio
    | Ebooks
    | Spreadsheets
    | Presentations
    | Code
    | Files

  /** The enumeration's string value, which is also the name of the
      category's directory. */
  function Value(c: Category): string {
    match c
    case Applications => "Applications"
    case Archives => "Archives"
    case Documents => "Documents"
    case Fonts => "Fonts"
    case Images => "Images"
    case Scripts => "Scripts"
    case Text => "Text"
    case Videos => "Videos"
    case ThreeD => "3D"
    case DiskImages => "Disk Images"
    case VMs => "VMs"
    case Audio => "Audio"
    case Ebooks => "Ebooks"
    case Spreadsheets => "Spreadsheets"
    case Presentations => "Presentations"
    case Code => "Code"
    case Files => "Files"
  }

  /** Distinct categories have distinct values, so no two categories share
      a directory; and no value begins with `archive_`, so a category's
      directory is never taken for an archive directory. */
  lemma ValuesDistinct(c: Category, d: Category)
    ensures c != d ==> Value(c) != Value(d)
    ensures !("archive_" <= Value(c))
  {
    assert Value(c)[0] != 'a';
    if c != d && |Value(c)| == |Value(d)| {
      assert Value(c)[0] != Value(d)[0] || Value(c)[1] != Value(d)[1] || Value(c)[2] != Value(d)[2];
    }
  }

  /** The category a file falls back to when its extension is not listed. */
  const Default: Category := Files

  /** One entry of `CATEGORY_EXTENSIONS`. */
  datatype Entry = Entry(category: Category, extensions: set<string>)

  /** The position of a category in the declaration order of the enum
      (and of the table). */
  function Position(c: Category): nat {
    match c
    case Applications => 0
    case Archives => 1
    case Documents => 2
    case Fonts => 3
    case Images => 4
    case Scripts => 5
    case Text => 6
    case Videos => 7
    case ThreeD => 8
    case DiskImages => 9
    case VMs => 10
    case Audio => 11
    case Ebooks => 12
    case Spreadsheets => 13
    case Presentations => 14
    case Code => 15
    case Files => 16
  }

  /** The sixteen sets of `CATEGORY_EXTENSIONS`, one per key. */
  datatype ExtensionSets = ExtensionSets(
    applications: set<string>,
    archives: set<string>,
    documents: set<string>,
    fonts: set<string>,
    images: set<string>,
    scripts: set<string>,
    text: set<string>,
    videos: set<string>,
    threeD: set<string>,
    diskImages: set<string>,
    vMs: set<string>,
    audio: set<string>,
    ebooks: set<string>,
    spreadsheets: set<string>,
    presentations: set<string>,
    code: set<string>)

  /** `CATEGORY_EXTENSIONS[c]`: the set a category is declared with.
      `Files` is not a key of the table and lists nothing. */
  function SetOf(sets: ExtensionSets, c: Category): set<string> {
    match c
    case Applications => sets.applications
    case Archives => sets.archives
    case Documents => sets.documents
    case Fonts => sets.fonts
    case Images => sets.images
    case Scripts => sets.scripts
    case Text => sets.text
    case Videos => sets.videos
    case ThreeD => sets.threeD
    case DiskImages => sets.diskImages
    case VMs => sets.vMs
    case Audio => sets.audio
    case Ebooks => sets.ebooks
    case Spreadsheets => sets.spreadsheets
    case Presentations => sets.presentations
    case Code => sets.code
    case Files => {}
  }

  /** The dictionary's entries in declaration order, which is the order in
      which iterating it visits them. */
  function TableOf(sets: ExtensionSets): seq<Entry> {
    [
      Entry(Applications, sets.applications),
      Entry(Archives, sets.archives),
      Entry(Documents, sets.documents),
      Entry(Fonts, sets.fonts),
      Entry(Images, sets.images),
      Entry(Scripts, sets.scripts),
      Entry(Text, sets.text),
      Entry(Videos, sets.videos),
      Entry(ThreeD, sets.threeD),
      Entry(DiskImages, sets.diskImages),
      Entry(VMs, sets.vMs),
      Entry(Audio, sets.audio),
      Entry(Ebooks, sets.ebooks),
      Entry(Spreadsheets, sets.spreadsheets),
      Entry(Presentations, sets.presentations),
      Entry(Code, sets.code)
    ]
  }

  /** The sets as src/tidydir/categories.py declares them. */
  function Declared(): ExtensionSets {
    ExtensionSets(
      ApplicationsExtensions(),
      ArchivesExtensions(),
      DocumentsExtensions(),
      FontsExtensions(),
      ImagesExtensions(),
      ScriptsExtensions(),
      TextExtensions(),
      VideosExtensions(),
      ThreeDExtensions(),
      DiskImagesExtensions(),
      VMsExtensions(),
      AudioExtensions(),
      EbooksExtensions(),
      SpreadsheetsExtensions(),
      PresentationsExtensions(),
      CodeExtensions())
  }

  /** `CATEGORY_EXTENSIONS`, iterated in declaration order. */
  function Table(): seq<Entry> {
    TableOf(Declared())
  }

  /** The only literals of the table that are not lower case. */
  const MixedCaseExtensions: set<string> := {".S", ".M", ".BUILD", ".WORKSPACE"}

  /** Every literal of a set is lower case or one of the mixed-case ones. */
  predicate WellCased(exts: set<string>) {
    forall e :: e in exts ==> IsLower(e) || e in MixedCaseExtensions
  }

  // categories.py:32-33
  function ApplicationsExtensions(): set<string> {
    ApplicationsPart1() + ApplicationsPart2()
  }
  // categories.py:32-32
  function ApplicationsPart1(): set<string> {
      {".exe", ".msi", ".app", ".deb", ".rpm", ".dmg", ".pkg", ".appimage"}
  }
  // categories.py:33-33
  function ApplicationsPart2(): set<string> {
      {".apk", ".ipa", ".xpi", ".vsix"}
  }

  // categories.py:36-38
  function ArchivesExtensions(): set<string> {
    ArchivesPart1() + ArchivesPart2() + ArchivesPart3()
  }
  // categories.py:36-36
  function ArchivesPart1(): set<string> {
      {".zip", ".tar", ".gz", ".rar", ".7z", ".bz2", ".xz", ".tgz", ".tar.gz"}
  }
  // categories.py:37-37
  function ArchivesPart2(): set<string> {
      {".tar.bz2", ".tar.xz", ".cab", ".arj", ".z", ".lz", ".lzma", ".lzo"}
  }
  // categories.py:38-38
  function ArchivesPart3(): set<string> {
      {".rz", ".sz", ".dz"}
  }

  // categories.py:41-43
  function DocumentsExtensions(): set<string> {
    DocumentsPart1() + DocumentsPart2()
  }
  // categories.py:41-41
  function DocumentsPart1(): set<string> {
      {".pdf", ".doc", ".docx", ".odt", ".rtf", ".tex", ".wpd", ".wps"}
  }
  // categories.py:42-43
  function DocumentsPart2(): set<string> {
      {".pages", ".key", ".odp", ".ods", ".odf", ".xps", ".ps", ".eps"}
    + {".prn", ".dvi"}
  }

  // categories.py:46-47
  function FontsExtensions(): set<string> {
    FontsPart1() + FontsPart2()
  }
  // categories.py:46-46
  function FontsPart1(): set<string> {
      {".ttf", ".otf", ".woff", ".woff2", ".eot", ".fon", ".fnt", ".ttc"}
  }
  // categories.py:47-47
  function FontsPart2(): set<string> {
      {".pfb", ".pfm", ".afm", ".sfd", ".vlw"}
  }

  // categories.py:50-56
  function ImagesExtensions(): set<string> {
    ImagesPart1() + ImagesPart2() + ImagesPart3() + ImagesPart4() + ImagesPart5() + ImagesPart6() + ImagesPart7()
  }
  // categories.py:50-50
  function ImagesPart1(): set<string> {
      {".jpg", ".jpeg", ".png", ".gif", ".bmp", ".svg", ".ico", ".tiff"}
  }
  // categories.py:51-51
  function ImagesPart2(): set<string> {
      {".webp", ".psd", ".xcf", ".raw", ".heif", ".heic", ".dng", ".cr2"}
  }
  // categories.py:52-52
  function ImagesPart3(): set<string> {
      {".nef", ".arw", ".orf", ".rw2", ".pef", ".sr2", ".raf", ".mrw"}
  }
  // categories.py:53-53
  function ImagesPart4(): set<string> {
      {".dcr", ".mos", ".nrw", ".ptx", ".pxn", ".r3d", ".x3f", ".srw"}
  }
  // categories.py:54-54
  function ImagesPart5(): set<string> {
      {".tga", ".dds", ".jfif", ".jp2", ".jpx", ".pbm", ".pgm", ".ppm"}
  }
  // categories.py:55-55
  function ImagesPart6(): set<string> {
      {".pnm", ".mng", ".apng", ".clip", ".cpt", ".exr", ".hdr", ".picti"}
  }
  // categories.py:56-56
  function ImagesPart7(): set<string> {
      {".sct", ".sgi", ".targa", ".vicar", ".viff", ".cur", ".ani"}
  }

  // categories.py:59-62
  function ScriptsExtensions(): set<string> {
    ScriptsPart1() + ScriptsPart2() + ScriptsPart3() + ScriptsPart4()
  }
  // categories.py:59-59
  function ScriptsPart1(): set<string> {
      {".py", ".js", ".sh", ".bat", ".ps1", ".rb", ".pl", ".php", ".bash"}
  }
  // categories.py:60-60
  function ScriptsPart2(): set<string> {
      {".zsh", ".fish", ".ksh", ".csh", ".tcsh", ".awk", ".sed", ".lua"}
  }
  // categories.py:61-61
  function ScriptsPart3(): set<string> {
      {".tcl", ".r", ".m", ".ahk", ".au3", ".applescript", ".vbs", ".cmd"}
  }
  // categories.py:62-62
  function ScriptsPart4(): set<string> {
      {".psm1", ".psd1", ".ps1xml"}
  }

  // categories.py:65-70
  function TextExtensions(): set<string> {
    TextPart1() + TextPart2() + TextPart3() + TextPart4() + TextPart5() + TextPart6()
  }
  // categories.py:65-65
  function TextPart1(): set<string> {
      {".txt", ".md", ".log", ".csv", ".json", ".xml", ".yaml", ".yml"}
  }
  // categories.py:66-66
  function TextPart2(): set<string> {
      {".ini", ".cfg", ".conf", ".properties", ".toml", ".rst", ".tex"}
  }
  // categories.py:67-67
  function TextPart3(): set<string> {
      {".adoc", ".textile", ".creole", ".mediawiki", ".wiki", ".nfo"}
  }
  // categories.py:68-68
  function TextPart4(): set<string> {
      {".readme", ".asc", ".etx", ".irclog", ".man", ".me", ".plain"}
  }
  // categories.py:69-69
  function TextPart5(): set<string> {
      {".rpt", ".ans", ".ascii", ".diz", ".ezt", ".info", ".lit", ".lnt"}
  }
  // categories.py:70-70
  function TextPart6(): set<string> {
      {".text", ".strings", ".vtt", ".srt", ".sub", ".sbv", ".ssa", ".ass"}
  }

  // categories.py:73-82
  function VideosExtensions(): set<string> {
    VideosPart1() + VideosPart2() + VideosPart3() + VideosPart4() + VideosPart5() + VideosPart6() + VideosPart7() + VideosPart8() + VideosPart9() + VideosPart10()
  }
  // categories.py:73-73
  function VideosPart1(): set<string> {
      {".mp4", ".avi", ".mkv", ".mov", ".wmv", ".flv", ".webm", ".m4v"}
  }
  // categories.py:74-74
  function VideosPart2(): set<string> {
      {".mpg", ".mpeg", ".3gp", ".3g2", ".f4v", ".f4p", ".ogv", ".ogg"}
  }
  // categories.py:75-75
  function VideosPart3(): set<string> {
      {".drc", ".mng", ".qt", ".yuv", ".rm", ".rmvb", ".asf", ".amv"}
  }
  // categories.py:76-76
  function VideosPart4(): set<string> {
      {".m2v", ".svi", ".mxf", ".roq", ".nsv", ".f4a", ".f4b", ".m2ts"}
  }
  // categories.py:77-77
  function VideosPart5(): set<string> {
      {".mts", ".vob", ".dv", ".mj2", ".mjpeg", ".m1v", ".m2p", ".m2t"}
  }
  // categories.py:78-78
  function VideosPart6(): set<string> {
      {".m4p", ".minipsf", ".nut", ".bik", ".smk", ".viv", ".daf", ".divx"}
  }
  // categories.py:79-79
  function VideosPart7(): set<string> {
      {".evo", ".mk3d", ".ivf", ".mpe", ".mpv", ".mpv2", ".m1v", ".m2v"}
  }
  // categories.py:80-80
  function VideosPart8(): set<string> {
      {".fli", ".flc", ".fxm", ".emf", ".ts", ".tsv", ".tsa", ".m2ts"}
  }
  // categories.py:81-81
  function VideosPart9(): set<string> {
      {".m2t", ".camrec", ".dav", ".wtv", ".ssif", ".smv", ".rv", ".dvr-ms"}
  }
  // categories.py:82-82
  function VideosPart10(): set<string> {
      {".mswmm", ".mseq", ".seq", ".clpi", ".rec", ".bdm", ".bdmv"}
  }

  // categories.py:85-91
  function ThreeDExtensions(): set<string> {
    ThreeDPart1() + ThreeDPart2() + ThreeDPart3() + ThreeDPart4() + ThreeDPart5() + ThreeDPart6() + ThreeDPart7()
  }
  // categories.py:85-85
  function ThreeDPart1(): set<string> {
      {".obj", ".fbx", ".dae", ".3ds", ".blend", ".stl", ".ply", ".gltf"}
  }
  // categories.py:86-86
  function ThreeDPart2(): set<string> {
      {".glb", ".usdz", ".x3d", ".x3db", ".bvh", ".dxf", ".lwo", ".lws"}
  }
  // categories.py:87-87
  function ThreeDPart3(): set<string> {
      {".m3d", ".md2", ".md3", ".md5", ".mesh", ".mot", ".ms3d", ".nif"}
  }
  // categories.py:88-88
  function ThreeDPart4(): set<string> {
      {".off", ".ogex", ".q3d", ".q3s", ".raw", ".smd", ".u3d", ".vrml"}
  }
  // categories.py:89-89
  function ThreeDPart5(): set<string> {
      {".wrl", ".x", ".xgl", ".zgl", ".3dm", ".max", ".3dxml", ".x3dz"}
  }
  // categories.py:90-90
  function ThreeDPart6(): set<string> {
      {".x3dbz", ".x3dv", ".x3dvz", ".x3db", ".c4d", ".lxo", ".ma", ".mb"}
  }
  // categories.py:91-91
  function ThreeDPart7(): set<string> {
      {".jas", ".mdl", ".wire", ".stl", ".iges", ".igs", ".step", ".stp"}
  }

  // categories.py:94-100
  function DiskImagesExtensions(): set<string> {
    DiskImagesPart1() + DiskImagesPart2() + DiskImagesPart3() + DiskImagesPart4() + DiskImagesPart5() + DiskImagesPart6() + DiskImagesPart7()
  }
  // categories.py:94-94
  function DiskImagesPart1(): set<string> {
      {".iso", ".img", ".vhd", ".vhdx", ".vdi", ".vmdk", ".dmg", ".cdr"}
  }
  // categories.py:95-95
  function DiskImagesPart2(): set<string> {
      {".dvd", ".wim", ".swm", ".esd", ".nrg", ".mdf", ".mds", ".mdx"}
  }
  // categories.py:96-96
  function DiskImagesPart3(): set<string> {
      {".ccd", ".sub", ".ima", ".udf", ".bin", ".cue", ".daa", ".pxi"}
  }
  // categories.py:97-97
  function DiskImagesPart4(): set<string> {
      {".nri", ".isz", ".eui", ".vcd", ".bwt", ".cdi", ".b5t", ".b6t"}
  }
  // categories.py:98-98
  function DiskImagesPart5(): set<string> {
      {".bwi", ".bws", ".bwa", ".ape", ".flac", ".wv", ".sdi", ".mde"}
  }
  // categories.py:99-99
  function DiskImagesPart6(): set<string> {
      {".md0", ".md1", ".md2", ".xa", ".ede", ".eds", ".ddi", ".gbi"}
  }
  // categories.py:100-100
  function DiskImagesPart7(): set<string> {
      {".tib", ".vbox-extpack"}
  }

  // categories.py:103-106
  function VMsExtensions(): set<string> {
    VMsPart1() + VMsPart2() + VMsPart3() + VMsPart4()
  }
  // categories.py:103-103
  function VMsPart1(): set<string> {
      {".ova", ".ovf", ".vbox", ".vbox-prev", ".vmc", ".vmwarevm", ".vmx"}
  }
  // categories.py:104-104
  function VMsPart2(): set<string> {
      {".vmxf", ".vmsd", ".vmsn", ".vmss", ".nvram", ".vmem", ".vmtm"}
  }
  // categories.py:105-105
  function VMsPart3(): set<string> {
      {".vmt", ".vhd", ".vhdx", ".avhd", ".avhdx", ".vud", ".vdi", ".hdd"}
  }
  // categories.py:106-106
  function VMsPart4(): set<string> {
      {".pvs", ".sav", ".xva", ".qcow", ".qcow2", ".qed", ".vhdp"}
  }

  // categories.py:109-119
  function AudioExtensions(): set<string> {
    AudioPart1() + AudioPart2() + AudioPart3() + AudioPart4() + AudioPart5() + AudioPart6() + AudioPart7() + AudioPart8() + AudioPart9() + AudioPart10() + AudioPart11()
  }
  // categories.py:109-109
  function AudioPart1(): set<string> {
      {".mp3", ".wav", ".flac", ".aac", ".ogg", ".wma", ".m4a", ".opus"}
  }
  // categories.py:110-110
  function AudioPart2(): set<string> {
      {".ape", ".mka", ".au", ".aiff", ".aif", ".aifc", ".dts", ".dtshd"}
  }
  // categories.py:111-111
  function AudioPart3(): set<string> {
      {".ac3", ".amr", ".awb", ".dss", ".dvf", ".m4b", ".m4p", ".mmf"}
  }
  // categories.py:112-112
  function AudioPart4(): set<string> {
      {".mpc", ".msv", ".oga", ".mogg", ".ra", ".rm", ".raw", ".sln"}
  }
  // categories.py:113-113
  function AudioPart5(): set<string> {
      {".tta", ".voc", ".vox", ".wv", ".webm", ".8svx", ".cda", ".mid"}
  }
  // categories.py:114-114
  function AudioPart6(): set<string> {
      {".midi", ".mus", ".sib", ".sid", ".xm", ".it", ".s3m", ".mod"}
  }
  // categories.py:115-115
  function AudioPart7(): set<string> {
      {".mtm", ".umx", ".vgm", ".vgz", ".aac", ".alac", ".mlp", ".dsd"}
  }
  // categories.py:116-116
  function AudioPart8(): set<string> {
      {".dsf", ".dff", ".tak", ".thd", ".tta", ".caf", ".kar", ".snd"}
  }
  // categories.py:117-117
  function AudioPart9(): set<string> {
      {".vqf", ".spx", ".spc", ".gym", ".adx", ".dsp", ".adp", ".ymf"}
  }
  // categories.py:118-118
  function AudioPart10(): set<string> {
      {".ast", ".afc", ".ymf", ".lwav", ".smp", ".aud", ".sng", ".imf"}
  }
  // categories.py:119-119
  function AudioPart11(): set<string> {
      {".m15", ".ply", ".m3u", ".m3u8", ".pls", ".asx", ".xspf"}
  }

  // categories.py:122-148
  function EbooksExtensions(): set<string> {
    EbooksPart1() + EbooksPart2() + EbooksPart3() + EbooksPart4() + EbooksPart5() + EbooksPart6() + EbooksPart7() + EbooksPart8() + EbooksPart9() + EbooksPart10() + EbooksPart11() + EbooksPart12() + EbooksPart13() + EbooksPart14() + EbooksPart15() + EbooksPart16() + EbooksPart17() + EbooksPart18() + EbooksPart19() + EbooksPart20() + EbooksPart21() + EbooksPart22() + EbooksPart23() + EbooksPart24() + EbooksPart25() + EbooksPart26() + EbooksPart27()
  }
  // categories.py:122-122
  function EbooksPart1(): set<string> {
      {".epub", ".mobi", ".azw", ".azw3", ".fb2", ".lit", ".pdb", ".kf8"}
  }
  // categories.py:123-123
  function EbooksPart2(): set<string> {
      {".azw4", ".tpz", ".prc", ".tcr", ".snb", ".webz", ".txtz", ".htmlz"}
  }
  // categories.py:124-124
  function EbooksPart3(): set<string> {
      {".oeb", ".lrf", ".lrx", ".cbr", ".cbz", ".cbt", ".cba", ".cb7"}
  }
  // categories.py:125-125
  function EbooksPart4(): set<string> {
      {".djvu", ".ibooks", ".oxps", ".xps", ".fb3", ".kfx", ".acsm", ".mart"}
  }
  // categories.py:126-126
  function EbooksPart5(): set<string> {
      {".mbp", ".ybk", ".koob", ".eal", ".ebk", ".ebx", ".etd", ".hsb"}
  }
  // categories.py:127-127
  function EbooksPart6(): set<string> {
      {".lit", ".lrs", ".nat", ".ncx", ".odb", ".odf", ".odm", ".odt"}
  }
  // categories.py:128-128
  function EbooksPart7(): set<string> {
      {".opu", ".opf", ".pef", ".phl", ".prc", ".rzb", ".rzs", ".tcz"}
  }
  // categories.py:129-129
  function EbooksPart8(): set<string> {
      {".tr", ".tr3", ".xeb", ".ava", ".bkk", ".brn", ".ceb", ".dnl"}
  }
  // categories.py:130-130
  function EbooksPart9(): set<string> {
      {".edn", ".eit", ".ebm", ".ebo", ".ebr", ".ebs", ".ebx", ".ecw"}
  }
  // categories.py:131-131
  function EbooksPart10(): set<string> {
      {".emd", ".emo", ".eny", ".eot", ".eta", ".etx", ".evi", ".evy"}
  }
  // categories.py:132-132
  function EbooksPart11(): set<string> {
      {".fax", ".fcf", ".fdr", ".fds", ".fdt", ".fdx", ".fft", ".fha"}
  }
  // categories.py:133-133
  function EbooksPart12(): set<string> {
      {".fhd", ".fhf", ".fik", ".fkb", ".fub", ".gho", ".gpd", ".han"}
  }
  // categories.py:134-134
  function EbooksPart13(): set<string> {
      {".hbk", ".htz", ".htx", ".htz4", ".htz5", ".htx", ".hux", ".hvx"}
  }
  // categories.py:135-135
  function EbooksPart14(): set<string> {
      {".hya", ".hyb", ".isx", ".jbr", ".jcr", ".kdz", ".keb", ".key"}
  }
  // categories.py:136-136
  function EbooksPart15(): set<string> {
      {".kfn", ".kfx", ".kml", ".kne", ".kon", ".kpf", ".kpw", ".lbr"}
  }
  // categories.py:137-137
  function EbooksPart16(): set<string> {
      {".lbxcol", ".lbxoeb", ".lbxosh", ".ldo", ".lix", ".llb", ".lrs"}
  }
  // categories.py:138-138
  function EbooksPart17(): set<string> {
      {".lrt", ".lrv", ".lrx", ".ltr", ".lts", ".ltz", ".lza", ".mag"}
  }
  // categories.py:139-139
  function EbooksPart18(): set<string> {
      {".mbp", ".meb", ".mht", ".mpub", ".msg", ".mwp", ".nfx", ".nva"}
  }
  // categories.py:140-140
  function EbooksPart19(): set<string> {
      {".obb", ".obk", ".obo", ".odc", ".odg", ".odi", ".odp", ".ods"}
  }
  // categories.py:141-141
  function EbooksPart20(): set<string> {
      {".odt", ".oeb", ".oebzip", ".onb", ".oop", ".opz", ".orn", ".orv"}
  }
  // categories.py:142-142
  function EbooksPart21(): set<string> {
      {".osi", ".otb", ".ott", ".otu", ".otz", ".oux", ".ove", ".ovx"}
  }
  // categories.py:143-143
  function EbooksPart22(): set<string> {
      {".owb", ".owc", ".oxb", ".p7a", ".p7s", ".pck", ".pcz", ".pdb"}
  }
  // categories.py:144-144
  function EbooksPart23(): set<string> {
      {".pdg", ".pdz", ".pea", ".peb", ".pec", ".pef", ".pex", ".pez"}
  }
  // categories.py:145-145
  function EbooksPart24(): set<string> {
      {".pfg", ".pfr", ".pk", ".pkg", ".plb", ".plc", ".pld", ".plf"}
  }
  // categories.py:146-146
  function EbooksPart25(): set<string> {
      {".pli", ".plx", ".pma", ".pmd", ".pml", ".pmlz", ".pmn", ".pmo"}
  }
  // categories.py:147-147
  function EbooksPart26(): set<string> {
      {".pmr", ".pmu", ".pmx", ".pmz", ".pnc", ".pnz", ".pot", ".ppa"}
  }
  // categories.py:148-148
  function EbooksPart27(): set<string> {
      {".ppb", ".ppn", ".ppo", ".ppp", ".ppw", ".ppx", ".pqa", ".pqb"}
  }

  // categories.py:151-155
  function SpreadsheetsExtensions(): set<string> {
    SpreadsheetsPart1() + SpreadsheetsPart2() + SpreadsheetsPart3() + SpreadsheetsPart4() + SpreadsheetsPart5()
  }
  // categories.py:151-151
  function SpreadsheetsPart1(): set<string> {
      {".xls", ".xlsx", ".ods", ".xlsm", ".xlsb", ".xltx", ".xltm", ".csv"}
  }
  // categories.py:152-152
  function SpreadsheetsPart2(): set<string> {
      {".tsv", ".dif", ".dbf", ".prn", ".slk", ".gnumeric", ".numbers"}
  }
  // categories.py:153-153
  function SpreadsheetsPart3(): set<string> {
      {".et", ".wks", ".wk1", ".wk2", ".wk3", ".wk4", ".xlr", ".xlt"}
  }
  // categories.py:154-154
  function SpreadsheetsPart4(): set<string> {
      {".xlam", ".xla", ".xlw", ".xlc", ".ots", ".sxc", ".stc", ".fods"}
  }
  // categories.py:155-155
  function SpreadsheetsPart5(): set<string> {
      {".wq1", ".wq2", ".wks", ".wku", ".dex", ".px"}
  }

  // categories.py:158-164
  function PresentationsExtensions(): set<string> {
    PresentationsPart1() + PresentationsPart2() + PresentationsPart3() + PresentationsPart4() + PresentationsPart5() + PresentationsPart6() + PresentationsPart7()
  }
  // categories.py:158-158
  function PresentationsPart1(): set<string> {
      {".ppt", ".pptx", ".odp", ".pps", ".ppsx", ".pptm", ".ppsm", ".potx"}
  }
  // categories.py:159-159
  function PresentationsPart2(): set<string> {
      {".potm", ".pot", ".otp", ".sxi", ".sti", ".pez", ".prz", ".shw"}
  }
  // categories.py:160-160
  function PresentationsPart3(): set<string> {
      {".show", ".slp", ".sspss", ".ope", ".sdd", ".sdp", ".sdd", ".sdw"}
  }
  // categories.py:161-161
  function PresentationsPart4(): set<string> {
      {".sgl", ".sor", ".sxd", ".sxg", ".sxi", ".sxm", ".sxw", ".uop"}
  }
  // categories.py:162-162
  function PresentationsPart5(): set<string> {
      {".vor", ".vsd", ".vss", ".vst", ".vdx", ".vsx", ".vtx", ".vsw"}
  }
  // categories.py:163-163
  function PresentationsPart6(): set<string> {
      {".vsdx", ".vssx", ".vstx", ".vsdm", ".vssm", ".vstm", ".gslides"}
  }
  // categories.py:164-164
  function PresentationsPart7(): set<string> {
      {".fodp", ".sldx", ".sldm"}
  }

  // categories.py:167-202
  function CodeExtensions(): set<string> {
    CodePart1() + CodePart2() + CodePart3() + CodePart4() + CodePart5() + CodePart6() + CodePart7() + CodePart8() + CodePart9() + CodePart10() + CodePart11() + CodePart12() + CodePart13() + CodePart14() + CodePart15() + CodePart16() + CodePart17() + CodePart18() + CodePart19() + CodePart20() + CodePart21() + CodePart22() + CodePart23() + CodePart24() + CodePart25() + CodePart26() + CodePart27() + CodePart28() + CodePart29() + CodePart30() + CodePart31() + CodePart32() + CodePart33() + CodePart34() + CodePart35() + CodePart36()
  }
  // categories.py:167-167
  function CodePart1(): set<string> {
      {".c", ".cpp", ".h", ".hpp", ".cc", ".cxx", ".c++", ".hh", ".hxx"}
  }
  // categories.py:168-168
  function CodePart2(): set<string> {
      {".h++", ".cp", ".tcc", ".inl", ".ipp", ".def", ".odl", ".idl"}
  }
  // categories.py:169-169
  function CodePart3(): set<string> {
      {".rc", ".rc2", ".rct", ".rgs", ".r", ".rd", ".rsx", ".fx", ".fxh"}
  }
  // categories.py:170-170
  function CodePart4(): set<string> {
      {".hlsl", ".vsh", ".psh", ".cg", ".shd", ".glsl", ".shader", ".java"}
  }
  // categories.py:171-171
  function CodePart5(): set<string> {
      {".class", ".jar", ".groovy", ".scala", ".clj", ".cljs", ".cljc"}
  }
  // categories.py:172-172
  function CodePart6(): set<string> {
      {".edn", ".kt", ".kts", ".dart", ".cs", ".csx", ".vb", ".vbs"}
  }
  // categories.py:173-173
  function CodePart7(): set<string> {
      {".bas", ".frm", ".cls", ".ctl", ".pag", ".dsr", ".dob", ".vbhtml"}
  }
  // categories.py:174-174
  function CodePart8(): set<string> {
      {".vbproj", ".vbproj.user", ".sln", ".csproj", ".fs", ".fsi", ".ml"}
  }
  // categories.py:175-175
  function CodePart9(): set<string> {
      {".mli", ".fsx", ".fsscript", ".pas", ".pp", ".inc", ".lpr", ".lfm"}
  }
  // categories.py:176-176
  function CodePart10(): set<string> {
      {".dpr", ".dpk", ".dproj", ".groupproj", ".bdsgroup", ".bdsproj"}
  }
  // categories.py:177-177
  function CodePart11(): set<string> {
      {".bpr", ".dfm", ".nfm", ".xfm", ".fmx", ".res", ".chr", ".rs"}
  }
  // categories.py:178-178
  function CodePart12(): set<string> {
      {".rlib", ".so", ".dll", ".dylib", ".a", ".lib", ".la", ".lo"}
  }
  // categories.py:179-179
  function CodePart13(): set<string> {
      {".exp", ".pdb", ".idb", ".ilk", ".manifest", ".dep"}
  }
  // categories.py:180-180
  function CodePart14(): set<string> {
      {".iobj", ".ipdb", ".pch", ".gch", ".pchi", ".hdmp", ".ncb"}
  }
  // categories.py:181-181
  function CodePart15(): set<string> {
      {".aps", ".sbr", ".bsc", ".fd", ".fe", ".tlog", ".lastbuildstate"}
  }
  // categories.py:182-182
  function CodePart16(): set<string> {
      {".meta", ".obj", ".pgc", ".pgd", ".rsp", ".tli"}
  }
  // categories.py:183-183
  function CodePart17(): set<string> {
      {".tlh", ".tmp", ".tmp_proj", ".vspscc", ".vssscc", ".builds"}
  }
  // categories.py:184-184
  function CodePart18(): set<string> {
      {".pidb", ".svclog", ".scc", ".vcxproj", ".vcxproj.filters"}
  }
  // categories.py:185-185
  function CodePart19(): set<string> {
      {".vcxproj.user", ".vcproj", ".vdproj", ".dbproj", ".dbproj.user"}
  }
  // categories.py:186-186
  function CodePart20(): set<string> {
      {".go", ".s", ".S", ".asm", ".nasm", ".yasm", ".swift", ".playground"}
  }
  // categories.py:187-187
  function CodePart21(): set<string> {
      {".m", ".mm", ".M", ".d", ".di", ".dd", ".ddoc"}
  }
  // categories.py:188-188
  function CodePart22(): set<string> {
      {".map", ".pc", ".pod", ".rst", ".hs"}
  }
  // categories.py:189-189
  function CodePart23(): set<string> {
      {".lhs", ".hi", ".hc", ".cabal", ".erl", ".hrl", ".beam", ".app"}
  }
  // categories.py:190-190
  function CodePart24(): set<string> {
      {".yrl", ".xrl", ".ex", ".exs", ".eex", ".jl", ".nim", ".nims"}
  }
  // categories.py:191-191
  function CodePart25(): set<string> {
      {".nimble", ".zig", ".v", ".vh", ".sv", ".svh", ".vhd", ".vhdl"}
  }
  // categories.py:192-192
  function CodePart26(): set<string> {
      {".vho", ".vhs", ".vht", ".vhw", ".vhc", ".ucf", ".qsf", ".tcl"}
  }
  // categories.py:193-193
  function CodePart27(): set<string> {
      {".sdc", ".xdc", ".xise", ".gise", ".ise", ".xmp", ".xco", ".ngc"}
  }
  // categories.py:194-194
  function CodePart28(): set<string> {
      {".ngo", ".asy", ".prj", ".psl", ".rpt", ".veo", ".vmo"}
  }
  // categories.py:195-195
  function CodePart29(): set<string> {
      {".syr", ".par", ".pad", ".unroutes", ".xpi", ".xst"}
  }
  // categories.py:196-196
  function CodePart30(): set<string> {
      {".stx", ".ngm", ".mrp", ".xrpt", ".drc", ".bgn", ".bit", ".xwbt", ".ngd", ".bld", ".ncd", ".ngr"}
  }
  // categories.py:197-197
  function CodePart31(): set<string> {
      {".pcf", ".auto", ".trace", ".twr", ".twx"}
  }
  // categories.py:198-198
  function CodePart32(): set<string> {
      {".cmd_log", ".jhd", ".ant", ".gradle", ".mvn", ".ivy"}
  }
  // categories.py:199-199
  function CodePart33(): set<string> {
      {".project", ".classpath", ".settings", ".idea", ".iml", ".ipr"}
  }
  // categories.py:200-200
  function CodePart34(): set<string> {
      {".iws", ".pro", ".pri", ".cmake", ".ninja", ".mk", ".makefile"}
  }
  // categories.py:201-201
  function CodePart35(): set<string> {
      {".gnumakefile", ".rules", ".ninja_deps", ".ninja_log", ".bazel"}
  }
  // categories.py:202-202
  function CodePart36(): set<string> {
      {".bzl", ".BUILD", ".WORKSPACE", ".gn", ".gni", ".gyp", ".gypi"}
  }

}

