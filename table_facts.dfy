/**
 * Facts about the literal table, established category by category (and
 * part by part for the larger categories): every literal is lower case or
 * one of the four mixed-case ones, the category is not empty, and for each
 * extension the model reasons about concretely, whether the category lists it.
 */
module TableFacts {
  import opened Text
  import opened Categories

  lemma ApplicationsPart1Case()
    ensures WellCased(ApplicationsPart1())
  {
  }

  lemma ApplicationsPart1Probes()
    ensures "" !in ApplicationsPart1()
      && ".jpg" !in ApplicationsPart1()
      && ".pdf" !in ApplicationsPart1()
      && ".mp3" !in ApplicationsPart1()
      && ".flac" !in ApplicationsPart1()
      && ".odt" !in ApplicationsPart1()
      && ".vhd" !in ApplicationsPart1()
      && ".dmg" in ApplicationsPart1()
      && ".webm" !in ApplicationsPart1()
      && ".s" !in ApplicationsPart1()
      && ".m" !in ApplicationsPart1()
      && ".M" !in ApplicationsPart1()
      && ".tar.gz" !in ApplicationsPart1()
  {
  }

  lemma ApplicationsPart2Case()
    ensures WellCased(ApplicationsPart2())
  {
  }

  lemma ApplicationsPart2Probes()
    ensures "" !in ApplicationsPart2()
      && ".jpg" !in ApplicationsPart2()
      && ".pdf" !in ApplicationsPart2()
      && ".mp3" !in ApplicationsPart2()
      && ".flac" !in ApplicationsPart2()
      && ".odt" !in ApplicationsPart2()
      && ".vhd" !in ApplicationsPart2()
      && ".dmg" !in ApplicationsPart2()
      && ".webm" !in ApplicationsPart2()
      && ".s" !in ApplicationsPart2()
      && ".m" !in ApplicationsPart2()
      && ".M" !in ApplicationsPart2()
      && ".tar.gz" !in ApplicationsPart2()
  {
  }

  /** `ApplicationsExtensions` is well cased. */
  lemma ApplicationsCase()
    ensures WellCased(ApplicationsExtensions())
  {
    ApplicationsPart1Case();
    ApplicationsPart2Case();
  }

  /** Which probe extensions `ApplicationsExtensions` lists. */
  lemma ApplicationsProbes()
    ensures ".exe" in ApplicationsExtensions()
      && "" !in ApplicationsExtensions()
      && ".jpg" !in ApplicationsExtensions()
      && ".pdf" !in ApplicationsExtensions()
      && ".mp3" !in ApplicationsExtensions()
      && ".flac" !in ApplicationsExtensions()
      && ".odt" !in ApplicationsExtensions()
      && ".vhd" !in ApplicationsExtensions()
      && ".dmg" in ApplicationsExtensions()
      && ".webm" !in ApplicationsExtensions()
      && ".s" !in ApplicationsExtensions()
      && ".m" !in ApplicationsExtensions()
      && ".M" !in ApplicationsExtensions()
      && ".tar.gz" !in ApplicationsExtensions()
  {
    ApplicationsPart1Probes();
    ApplicationsPart2Probes();
  }

  lemma ArchivesPart1Case()
    ensures WellCased(ArchivesPart1())
  {
  }

  lemma ArchivesPart1Probes()
    ensures "" !in ArchivesPart1()
      && ".jpg" !in ArchivesPart1()
      && ".pdf" !in ArchivesPart1()
      && ".mp3" !in ArchivesPart1()
      && ".flac" !in ArchivesPart1()
      && ".odt" !in ArchivesPart1()
      && ".vhd" !in ArchivesPart1()
      && ".dmg" !in ArchivesPart1()
      && ".webm" !in ArchivesPart1()
      && ".s" !in ArchivesPart1()
      && ".m" !in ArchivesPart1()
      && ".M" !in ArchivesPart1()
      && ".tar.gz" in ArchivesPart1()
  {
  }

  lemma ArchivesPart2Case()
    ensures WellCased(ArchivesPart2())
  {
  }

  lemma ArchivesPart2Probes()
    ensures "" !in ArchivesPart2()
      && ".jpg" !in ArchivesPart2()
      && ".pdf" !in ArchivesPart2()
      && ".mp3" !in ArchivesPart2()
      && ".flac" !in ArchivesPart2()
      && ".odt" !in ArchivesPart2()
      && ".vhd" !in ArchivesPart2()
      && ".dmg" !in ArchivesPart2()
      && ".webm" !in ArchivesPart2()
      && ".s" !in ArchivesPart2()
      && ".m" !in ArchivesPart2()
      && ".M" !in ArchivesPart2()
      && ".tar.gz" !in ArchivesPart2()
  {
  }

  lemma ArchivesPart3Case()
    ensures WellCased(ArchivesPart3())
  {
  }

  lemma ArchivesPart3Probes()
    ensures "" !in ArchivesPart3()
      && ".jpg" !in ArchivesPart3()
      && ".pdf" !in ArchivesPart3()
      && ".mp3" !in ArchivesPart3()
      && ".flac" !in ArchivesPart3()
      && ".odt" !in ArchivesPart3()
      && ".vhd" !in ArchivesPart3()
      && ".dmg" !in ArchivesPart3()
      && ".webm" !in ArchivesPart3()
      && ".s" !in ArchivesPart3()
      && ".m" !in ArchivesPart3()
      && ".M" !in ArchivesPart3()
      && ".tar.gz" !in ArchivesPart3()
  {
  }

  /** `ArchivesExtensions` is well cased. */
  lemma ArchivesCase()
    ensures WellCased(ArchivesExtensions())
  {
    ArchivesPart1Case();
    ArchivesPart2Case();
    ArchivesPart3Case();
  }

  /** Which probe extensions `ArchivesExtensions` lists. */
  lemma ArchivesProbes()
    ensures ".zip" in ArchivesExtensions()
      && "" !in ArchivesExtensions()
      && ".jpg" !in ArchivesExtensions()
      && ".pdf" !in ArchivesExtensions()
      && ".mp3" !in ArchivesExtensions()
      && ".flac" !in ArchivesExtensions()
      && ".odt" !in ArchivesExtensions()
      && ".vhd" !in ArchivesExtensions()
      && ".dmg" !in ArchivesExtensions()
      && ".webm" !in ArchivesExtensions()
      && ".s" !in ArchivesExtensions()
      && ".m" !in ArchivesExtensions()
      && ".M" !in ArchivesExtensions()
      && ".tar.gz" in ArchivesExtensions()
  {
    ArchivesPart1Probes();
    ArchivesPart2Probes();
    ArchivesPart3Probes();
  }

  lemma DocumentsPart1Case()
    ensures WellCased(DocumentsPart1())
  {
  }

  lemma DocumentsPart1Probes()
    ensures "" !in DocumentsPart1()
      && ".jpg" !in DocumentsPart1()
      && ".pdf" in DocumentsPart1()
      && ".mp3" !in DocumentsPart1()
      && ".flac" !in DocumentsPart1()
      && ".odt" in DocumentsPart1()
      && ".vhd" !in DocumentsPart1()
      && ".dmg" !in DocumentsPart1()
      && ".webm" !in DocumentsPart1()
      && ".s" !in DocumentsPart1()
      && ".m" !in DocumentsPart1()
      && ".M" !in DocumentsPart1()
      && ".tar.gz" !in DocumentsPart1()
  {
  }

  lemma DocumentsPart2Case()
    ensures WellCased(DocumentsPart2())
  {
  }

  lemma DocumentsPart2Probes()
    ensures "" !in DocumentsPart2()
      && ".jpg" !in DocumentsPart2()
      && ".pdf" !in DocumentsPart2()
      && ".mp3" !in DocumentsPart2()
      && ".flac" !in DocumentsPart2()
      && ".odt" !in DocumentsPart2()
      && ".vhd" !in DocumentsPart2()
      && ".dmg" !in DocumentsPart2()
      && ".webm" !in DocumentsPart2()
      && ".s" !in DocumentsPart2()
      && ".m" !in DocumentsPart2()
      && ".M" !in DocumentsPart2()
      && ".tar.gz" !in DocumentsPart2()
  {
  }

  /** `DocumentsExtensions` is well cased. */
  lemma DocumentsCase()
    ensures WellCased(DocumentsExtensions())
  {
    DocumentsPart1Case();
    DocumentsPart2Case();
  }

  /** Which probe extensions `DocumentsExtensions` lists. */
  lemma DocumentsProbes()
    ensures "" !in DocumentsExtensions()
      && ".jpg" !in DocumentsExtensions()
      && ".pdf" in DocumentsExtensions()
      && ".mp3" !in DocumentsExtensions()
      && ".flac" !in DocumentsExtensions()
      && ".odt" in DocumentsExtensions()
      && ".vhd" !in DocumentsExtensions()
      && ".dmg" !in DocumentsExtensions()
      && ".webm" !in DocumentsExtensions()
      && ".s" !in DocumentsExtensions()
      && ".m" !in DocumentsExtensions()
      && ".M" !in DocumentsExtensions()
      && ".tar.gz" !in DocumentsExtensions()
  {
    DocumentsPart1Probes();
    DocumentsPart2Probes();
  }

  lemma FontsPart1Case()
    ensures WellCased(FontsPart1())
  {
  }

  lemma FontsPart1Probes()
    ensures "" !in FontsPart1()
      && ".jpg" !in FontsPart1()
      && ".pdf" !in FontsPart1()
      && ".mp3" !in FontsPart1()
      && ".flac" !in FontsPart1()
      && ".odt" !in FontsPart1()
      && ".vhd" !in FontsPart1()
      && ".dmg" !in FontsPart1()
      && ".webm" !in FontsPart1()
      && ".s" !in FontsPart1()
      && ".m" !in FontsPart1()
      && ".M" !in FontsPart1()
      && ".tar.gz" !in FontsPart1()
  {
  }

  lemma FontsPart2Case()
    ensures WellCased(FontsPart2())
  {
  }

  lemma FontsPart2Probes()
    ensures "" !in FontsPart2()
      && ".jpg" !in FontsPart2()
      && ".pdf" !in FontsPart2()
      && ".mp3" !in FontsPart2()
      && ".flac" !in FontsPart2()
      && ".odt" !in FontsPart2()
      && ".vhd" !in FontsPart2()
      && ".dmg" !in FontsPart2()
      && ".webm" !in FontsPart2()
      && ".s" !in FontsPart2()
      && ".m" !in FontsPart2()
      && ".M" !in FontsPart2()
      && ".tar.gz" !in FontsPart2()
  {
  }

  /** `FontsExtensions` is well cased. */
  lemma FontsCase()
    ensures WellCased(FontsExtensions())
  {
    FontsPart1Case();
    FontsPart2Case();
  }

  /** Which probe extensions `FontsExtensions` lists. */
  lemma FontsProbes()
    ensures ".ttf" in FontsExtensions()
      && "" !in FontsExtensions()
      && ".jpg" !in FontsExtensions()
      && ".pdf" !in FontsExtensions()
      && ".mp3" !in FontsExtensions()
      && ".flac" !in FontsExtensions()
      && ".odt" !in FontsExtensions()
      && ".vhd" !in FontsExtensions()
      && ".dmg" !in FontsExtensions()
      && ".webm" !in FontsExtensions()
      && ".s" !in FontsExtensions()
      && ".m" !in FontsExtensions()
      && ".M" !in FontsExtensions()
      && ".tar.gz" !in FontsExtensions()
  {
    FontsPart1Probes();
    FontsPart2Probes();
  }

  lemma ImagesPart1Case()
    ensures WellCased(ImagesPart1())
  {
  }

  lemma ImagesPart1Probes()
    ensures "" !in ImagesPart1()
      && ".jpg" in ImagesPart1()
      && ".pdf" !in ImagesPart1()
      && ".mp3" !in ImagesPart1()
      && ".flac" !in ImagesPart1()
      && ".odt" !in ImagesPart1()
      && ".vhd" !in ImagesPart1()
      && ".dmg" !in ImagesPart1()
      && ".webm" !in ImagesPart1()
      && ".s" !in ImagesPart1()
      && ".m" !in ImagesPart1()
      && ".M" !in ImagesPart1()
      && ".tar.gz" !in ImagesPart1()
  {
  }

  lemma ImagesPart2Case()
    ensures WellCased(ImagesPart2())
  {
  }

  lemma ImagesPart2Probes()
    ensures "" !in ImagesPart2()
      && ".jpg" !in ImagesPart2()
      && ".pdf" !in ImagesPart2()
      && ".mp3" !in ImagesPart2()
      && ".flac" !in ImagesPart2()
      && ".odt" !in ImagesPart2()
      && ".vhd" !in ImagesPart2()
      && ".dmg" !in ImagesPart2()
      && ".webm" !in ImagesPart2()
      && ".s" !in ImagesPart2()
      && ".m" !in ImagesPart2()
      && ".M" !in ImagesPart2()
      && ".tar.gz" !in ImagesPart2()
  {
  }

  lemma ImagesPart3Case()
    ensures WellCased(ImagesPart3())
  {
  }

  lemma ImagesPart3Probes()
    ensures "" !in ImagesPart3()
      && ".jpg" !in ImagesPart3()
      && ".pdf" !in ImagesPart3()
      && ".mp3" !in ImagesPart3()
      && ".flac" !in ImagesPart3()
      && ".odt" !in ImagesPart3()
      && ".vhd" !in ImagesPart3()
      && ".dmg" !in ImagesPart3()
      && ".webm" !in ImagesPart3()
      && ".s" !in ImagesPart3()
      && ".m" !in ImagesPart3()
      && ".M" !in ImagesPart3()
      && ".tar.gz" !in ImagesPart3()
  {
  }

  lemma ImagesPart4Case()
    ensures WellCased(ImagesPart4())
  {
  }

  lemma ImagesPart4Probes()
    ensures "" !in ImagesPart4()
      && ".jpg" !in ImagesPart4()
      && ".pdf" !in ImagesPart4()
      && ".mp3" !in ImagesPart4()
      && ".flac" !in ImagesPart4()
      && ".odt" !in ImagesPart4()
      && ".vhd" !in ImagesPart4()
      && ".dmg" !in ImagesPart4()
      && ".webm" !in ImagesPart4()
      && ".s" !in ImagesPart4()
      && ".m" !in ImagesPart4()
      && ".M" !in ImagesPart4()
      && ".tar.gz" !in ImagesPart4()
  {
  }

  lemma ImagesPart5Case()
    ensures WellCased(ImagesPart5())
  {
  }

  lemma ImagesPart5Probes()
    ensures "" !in ImagesPart5()
      && ".jpg" !in ImagesPart5()
      && ".pdf" !in ImagesPart5()
      && ".mp3" !in ImagesPart5()
      && ".flac" !in ImagesPart5()
      && ".odt" !in ImagesPart5()
      && ".vhd" !in ImagesPart5()
      && ".dmg" !in ImagesPart5()
      && ".webm" !in ImagesPart5()
      && ".s" !in ImagesPart5()
      && ".m" !in ImagesPart5()
      && ".M" !in ImagesPart5()
      && ".tar.gz" !in ImagesPart5()
  {
  }

  lemma ImagesPart6Case()
    ensures WellCased(ImagesPart6())
  {
  }

  lemma ImagesPart6Probes()
    ensures "" !in ImagesPart6()
      && ".jpg" !in ImagesPart6()
      && ".pdf" !in ImagesPart6()
      && ".mp3" !in ImagesPart6()
      && ".flac" !in ImagesPart6()
      && ".odt" !in ImagesPart6()
      && ".vhd" !in ImagesPart6()
      && ".dmg" !in ImagesPart6()
      && ".webm" !in ImagesPart6()
      && ".s" !in ImagesPart6()
      && ".m" !in ImagesPart6()
      && ".M" !in ImagesPart6()
      && ".tar.gz" !in ImagesPart6()
  {
  }

  lemma ImagesPart7Case()
    ensures WellCased(ImagesPart7())
  {
  }

  lemma ImagesPart7Probes()
    ensures "" !in ImagesPart7()
      && ".jpg" !in ImagesPart7()
      && ".pdf" !in ImagesPart7()
      && ".mp3" !in ImagesPart7()
      && ".flac" !in ImagesPart7()
      && ".odt" !in ImagesPart7()
      && ".vhd" !in ImagesPart7()
      && ".dmg" !in ImagesPart7()
      && ".webm" !in ImagesPart7()
      && ".s" !in ImagesPart7()
      && ".m" !in ImagesPart7()
      && ".M" !in ImagesPart7()
      && ".tar.gz" !in ImagesPart7()
  {
  }

  /** `ImagesExtensions` is well cased. */
  lemma ImagesCase()
    ensures WellCased(ImagesExtensions())
  {
    ImagesPart1Case();
    ImagesPart2Case();
    ImagesPart3Case();
    ImagesPart4Case();
    ImagesPart5Case();
    ImagesPart6Case();
    ImagesPart7Case();
  }

  /** Which probe extensions `ImagesExtensions` lists. */
  lemma ImagesProbes()
    ensures "" !in ImagesExtensions()
      && ".jpg" in ImagesExtensions()
      && ".pdf" !in ImagesExtensions()
      && ".mp3" !in ImagesExtensions()
      && ".flac" !in ImagesExtensions()
      && ".odt" !in ImagesExtensions()
      && ".vhd" !in ImagesExtensions()
      && ".dmg" !in ImagesExtensions()
      && ".webm" !in ImagesExtensions()
      && ".s" !in ImagesExtensions()
      && ".m" !in ImagesExtensions()
      && ".M" !in ImagesExtensions()
      && ".tar.gz" !in ImagesExtensions()
  {
    ImagesPart1Probes();
    ImagesPart2Probes();
    ImagesPart3Probes();
    ImagesPart4Probes();
    ImagesPart5Probes();
    ImagesPart6Probes();
    ImagesPart7Probes();
  }

  lemma ScriptsPart1Case()
    ensures WellCased(ScriptsPart1())
  {
  }

  lemma ScriptsPart1Probes()
    ensures "" !in ScriptsPart1()
      && ".jpg" !in ScriptsPart1()
      && ".pdf" !in ScriptsPart1()
      && ".mp3" !in ScriptsPart1()
      && ".flac" !in ScriptsPart1()
      && ".odt" !in ScriptsPart1()
      && ".vhd" !in ScriptsPart1()
      && ".dmg" !in ScriptsPart1()
      && ".webm" !in ScriptsPart1()
      && ".s" !in ScriptsPart1()
      && ".m" !in ScriptsPart1()
      && ".M" !in ScriptsPart1()
      && ".tar.gz" !in ScriptsPart1()
  {
  }

  lemma ScriptsPart2Case()
    ensures WellCased(ScriptsPart2())
  {
  }

  lemma ScriptsPart2Probes()
    ensures "" !in ScriptsPart2()
      && ".jpg" !in ScriptsPart2()
      && ".pdf" !in ScriptsPart2()
      && ".mp3" !in ScriptsPart2()
      && ".flac" !in ScriptsPart2()
      && ".odt" !in ScriptsPart2()
      && ".vhd" !in ScriptsPart2()
      && ".dmg" !in ScriptsPart2()
      && ".webm" !in ScriptsPart2()
      && ".s" !in ScriptsPart2()
      && ".m" !in ScriptsPart2()
      && ".M" !in ScriptsPart2()
      && ".tar.gz" !in ScriptsPart2()
  {
  }

  lemma ScriptsPart3Case()
    ensures WellCased(ScriptsPart3())
  {
  }

  lemma ScriptsPart3Probes()
    ensures "" !in ScriptsPart3()
      && ".jpg" !in ScriptsPart3()
      && ".pdf" !in ScriptsPart3()
      && ".mp3" !in ScriptsPart3()
      && ".flac" !in ScriptsPart3()
      && ".odt" !in ScriptsPart3()
      && ".vhd" !in ScriptsPart3()
      && ".dmg" !in ScriptsPart3()
      && ".webm" !in ScriptsPart3()
      && ".s" !in ScriptsPart3()
      && ".m" in ScriptsPart3()
      && ".M" !in ScriptsPart3()
      && ".tar.gz" !in ScriptsPart3()
  {
  }

  lemma ScriptsPart4Case()
    ensures WellCased(ScriptsPart4())
  {
  }

  lemma ScriptsPart4Probes()
    ensures "" !in ScriptsPart4()
      && ".jpg" !in ScriptsPart4()
      && ".pdf" !in ScriptsPart4()
      && ".mp3" !in ScriptsPart4()
      && ".flac" !in ScriptsPart4()
      && ".odt" !in ScriptsPart4()
      && ".vhd" !in ScriptsPart4()
      && ".dmg" !in ScriptsPart4()
      && ".webm" !in ScriptsPart4()
      && ".s" !in ScriptsPart4()
      && ".m" !in ScriptsPart4()
      && ".M" !in ScriptsPart4()
      && ".tar.gz" !in ScriptsPart4()
  {
  }

  /** `ScriptsExtensions` is well cased. */
  lemma ScriptsCase()
    ensures WellCased(ScriptsExtensions())
  {
    ScriptsPart1Case();
    ScriptsPart2Case();
    ScriptsPart3Case();
    ScriptsPart4Case();
  }

  /** Which probe extensions `ScriptsExtensions` lists. */
  lemma ScriptsProbes()
    ensures ".py" in ScriptsExtensions()
      && "" !in ScriptsExtensions()
      && ".jpg" !in ScriptsExtensions()
      && ".pdf" !in ScriptsExtensions()
      && ".mp3" !in ScriptsExtensions()
      && ".flac" !in ScriptsExtensions()
      && ".odt" !in ScriptsExtensions()
      && ".vhd" !in ScriptsExtensions()
      && ".dmg" !in ScriptsExtensions()
      && ".webm" !in ScriptsExtensions()
      && ".s" !in ScriptsExtensions()
      && ".m" in ScriptsExtensions()
      && ".M" !in ScriptsExtensions()
      && ".tar.gz" !in ScriptsExtensions()
  {
    ScriptsPart1Probes();
    ScriptsPart2Probes();
    ScriptsPart3Probes();
    ScriptsPart4Probes();
  }

  lemma TextPart1Case()
    ensures WellCased(TextPart1())
  {
  }

  lemma TextPart1Probes()
    ensures "" !in TextPart1()
      && ".jpg" !in TextPart1()
      && ".pdf" !in TextPart1()
      && ".mp3" !in TextPart1()
      && ".flac" !in TextPart1()
      && ".odt" !in TextPart1()
      && ".vhd" !in TextPart1()
      && ".dmg" !in TextPart1()
      && ".webm" !in TextPart1()
      && ".s" !in TextPart1()
      && ".m" !in TextPart1()
      && ".M" !in TextPart1()
      && ".tar.gz" !in TextPart1()
  {
  }

  lemma TextPart2Case()
    ensures WellCased(TextPart2())
  {
  }

  lemma TextPart2Probes()
    ensures "" !in TextPart2()
      && ".jpg" !in TextPart2()
      && ".pdf" !in TextPart2()
      && ".mp3" !in TextPart2()
      && ".flac" !in TextPart2()
      && ".odt" !in TextPart2()
      && ".vhd" !in TextPart2()
      && ".dmg" !in TextPart2()
      && ".webm" !in TextPart2()
      && ".s" !in TextPart2()
      && ".m" !in TextPart2()
      && ".M" !in TextPart2()
      && ".tar.gz" !in TextPart2()
  {
  }

  lemma TextPart3Case()
    ensures WellCased(TextPart3())
  {
  }

  lemma TextPart3Probes()
    ensures "" !in TextPart3()
      && ".jpg" !in TextPart3()
      && ".pdf" !in TextPart3()
      && ".mp3" !in TextPart3()
      && ".flac" !in TextPart3()
      && ".odt" !in TextPart3()
      && ".vhd" !in TextPart3()
      && ".dmg" !in TextPart3()
      && ".webm" !in TextPart3()
      && ".s" !in TextPart3()
      && ".m" !in TextPart3()
      && ".M" !in TextPart3()
      && ".tar.gz" !in TextPart3()
  {
  }

  lemma TextPart4Case()
    ensures WellCased(TextPart4())
  {
  }

  lemma TextPart4Probes()
    ensures "" !in TextPart4()
      && ".jpg" !in TextPart4()
      && ".pdf" !in TextPart4()
      && ".mp3" !in TextPart4()
      && ".flac" !in TextPart4()
      && ".odt" !in TextPart4()
      && ".vhd" !in TextPart4()
      && ".dmg" !in TextPart4()
      && ".webm" !in TextPart4()
      && ".s" !in TextPart4()
      && ".m" !in TextPart4()
      && ".M" !in TextPart4()
      && ".tar.gz" !in TextPart4()
  {
  }

  lemma TextPart5Case()
    ensures WellCased(TextPart5())
  {
  }

  lemma TextPart5Probes()
    ensures "" !in TextPart5()
      && ".jpg" !in TextPart5()
      && ".pdf" !in TextPart5()
      && ".mp3" !in TextPart5()
      && ".flac" !in TextPart5()
      && ".odt" !in TextPart5()
      && ".vhd" !in TextPart5()
      && ".dmg" !in TextPart5()
      && ".webm" !in TextPart5()
      && ".s" !in TextPart5()
      && ".m" !in TextPart5()
      && ".M" !in TextPart5()
      && ".tar.gz" !in TextPart5()
  {
  }

  lemma TextPart6Case()
    ensures WellCased(TextPart6())
  {
  }

  lemma TextPart6Probes()
    ensures "" !in TextPart6()
      && ".jpg" !in TextPart6()
      && ".pdf" !in TextPart6()
      && ".mp3" !in TextPart6()
      && ".flac" !in TextPart6()
      && ".odt" !in TextPart6()
      && ".vhd" !in TextPart6()
      && ".dmg" !in TextPart6()
      && ".webm" !in TextPart6()
      && ".s" !in TextPart6()
      && ".m" !in TextPart6()
      && ".M" !in TextPart6()
      && ".tar.gz" !in TextPart6()
  {
  }

  /** `TextExtensions` is well cased. */
  lemma TextCase()
    ensures WellCased(TextExtensions())
  {
    TextPart1Case();
    TextPart2Case();
    TextPart3Case();
    TextPart4Case();
    TextPart5Case();
    TextPart6Case();
  }

  /** Which probe extensions `TextExtensions` lists. */
  lemma TextProbes()
    ensures ".txt" in TextExtensions()
      && "" !in TextExtensions()
      && ".jpg" !in TextExtensions()
      && ".pdf" !in TextExtensions()
      && ".mp3" !in TextExtensions()
      && ".flac" !in TextExtensions()
      && ".odt" !in TextExtensions()
      && ".vhd" !in TextExtensions()
      && ".dmg" !in TextExtensions()
      && ".webm" !in TextExtensions()
      && ".s" !in TextExtensions()
      && ".m" !in TextExtensions()
      && ".M" !in TextExtensions()
      && ".tar.gz" !in TextExtensions()
  {
    TextPart1Probes();
    TextPart2Probes();
    TextPart3Probes();
    TextPart4Probes();
    TextPart5Probes();
    TextPart6Probes();
  }

  lemma VideosPart1Case()
    ensures WellCased(VideosPart1())
  {
  }

  lemma VideosPart1Probes()
    ensures "" !in VideosPart1()
      && ".jpg" !in VideosPart1()
      && ".pdf" !in VideosPart1()
      && ".mp3" !in VideosPart1()
      && ".flac" !in VideosPart1()
      && ".odt" !in VideosPart1()
      && ".vhd" !in VideosPart1()
      && ".dmg" !in VideosPart1()
      && ".webm" in VideosPart1()
      && ".s" !in VideosPart1()
      && ".m" !in VideosPart1()
      && ".M" !in VideosPart1()
      && ".tar.gz" !in VideosPart1()
  {
  }

  lemma VideosPart2Case()
    ensures WellCased(VideosPart2())
  {
  }

  lemma VideosPart2Probes()
    ensures "" !in VideosPart2()
      && ".jpg" !in VideosPart2()
      && ".pdf" !in VideosPart2()
      && ".mp3" !in VideosPart2()
      && ".flac" !in VideosPart2()
      && ".odt" !in VideosPart2()
      && ".vhd" !in VideosPart2()
      && ".dmg" !in VideosPart2()
      && ".webm" !in VideosPart2()
      && ".s" !in VideosPart2()
      && ".m" !in VideosPart2()
      && ".M" !in VideosPart2()
      && ".tar.gz" !in VideosPart2()
  {
  }

  lemma VideosPart3Case()
    ensures WellCased(VideosPart3())
  {
  }

  lemma VideosPart3Probes()
    ensures "" !in VideosPart3()
      && ".jpg" !in VideosPart3()
      && ".pdf" !in VideosPart3()
      && ".mp3" !in VideosPart3()
      && ".flac" !in VideosPart3()
      && ".odt" !in VideosPart3()
      && ".vhd" !in VideosPart3()
      && ".dmg" !in VideosPart3()
      && ".webm" !in VideosPart3()
      && ".s" !in VideosPart3()
      && ".m" !in VideosPart3()
      && ".M" !in VideosPart3()
      && ".tar.gz" !in VideosPart3()
  {
  }

  lemma VideosPart4Case()
    ensures WellCased(VideosPart4())
  {
  }

  lemma VideosPart4Probes()
    ensures "" !in VideosPart4()
      && ".jpg" !in VideosPart4()
      && ".pdf" !in VideosPart4()
      && ".mp3" !in VideosPart4()
      && ".flac" !in VideosPart4()
      && ".odt" !in VideosPart4()
      && ".vhd" !in VideosPart4()
      && ".dmg" !in VideosPart4()
      && ".webm" !in VideosPart4()
      && ".s" !in VideosPart4()
      && ".m" !in VideosPart4()
      && ".M" !in VideosPart4()
      && ".tar.gz" !in VideosPart4()
  {
  }

  lemma VideosPart5Case()
    ensures WellCased(VideosPart5())
  {
  }

  lemma VideosPart5Probes()
    ensures "" !in VideosPart5()
      && ".jpg" !in VideosPart5()
      && ".pdf" !in VideosPart5()
      && ".mp3" !in VideosPart5()
      && ".flac" !in VideosPart5()
      && ".odt" !in VideosPart5()
      && ".vhd" !in VideosPart5()
      && ".dmg" !in VideosPart5()
      && ".webm" !in VideosPart5()
      && ".s" !in VideosPart5()
      && ".m" !in VideosPart5()
      && ".M" !in VideosPart5()
      && ".tar.gz" !in VideosPart5()
  {
  }

  lemma VideosPart6Case()
    ensures WellCased(VideosPart6())
  {
  }

  lemma VideosPart6Probes()
    ensures "" !in VideosPart6()
      && ".jpg" !in VideosPart6()
      && ".pdf" !in VideosPart6()
      && ".mp3" !in VideosPart6()
      && ".flac" !in VideosPart6()
      && ".odt" !in VideosPart6()
      && ".vhd" !in VideosPart6()
      && ".dmg" !in VideosPart6()
      && ".webm" !in VideosPart6()
      && ".s" !in VideosPart6()
      && ".m" !in VideosPart6()
      && ".M" !in VideosPart6()
      && ".tar.gz" !in VideosPart6()
  {
  }

  lemma VideosPart7Case()
    ensures WellCased(VideosPart7())
  {
  }

  lemma VideosPart7Probes()
    ensures "" !in VideosPart7()
      && ".jpg" !in VideosPart7()
      && ".pdf" !in VideosPart7()
      && ".mp3" !in VideosPart7()
      && ".flac" !in VideosPart7()
      && ".odt" !in VideosPart7()
      && ".vhd" !in VideosPart7()
      && ".dmg" !in VideosPart7()
      && ".webm" !in VideosPart7()
      && ".s" !in VideosPart7()
      && ".m" !in VideosPart7()
      && ".M" !in VideosPart7()
      && ".tar.gz" !in VideosPart7()
  {
  }

  lemma VideosPart8Case()
    ensures WellCased(VideosPart8())
  {
  }

  lemma VideosPart8Probes()
    ensures "" !in VideosPart8()
      && ".jpg" !in VideosPart8()
      && ".pdf" !in VideosPart8()
      && ".mp3" !in VideosPart8()
      && ".flac" !in VideosPart8()
      && ".odt" !in VideosPart8()
      && ".vhd" !in VideosPart8()
      && ".dmg" !in VideosPart8()
      && ".webm" !in VideosPart8()
      && ".s" !in VideosPart8()
      && ".m" !in VideosPart8()
      && ".M" !in VideosPart8()
      && ".tar.gz" !in VideosPart8()
  {
  }

  lemma VideosPart9Case()
    ensures WellCased(VideosPart9())
  {
  }

  lemma VideosPart9Probes()
    ensures "" !in VideosPart9()
      && ".jpg" !in VideosPart9()
      && ".pdf" !in VideosPart9()
      && ".mp3" !in VideosPart9()
      && ".flac" !in VideosPart9()
      && ".odt" !in VideosPart9()
      && ".vhd" !in VideosPart9()
      && ".dmg" !in VideosPart9()
      && ".webm" !in VideosPart9()
      && ".s" !in VideosPart9()
      && ".m" !in VideosPart9()
      && ".M" !in VideosPart9()
      && ".tar.gz" !in VideosPart9()
  {
  }

  lemma VideosPart10Case()
    ensures WellCased(VideosPart10())
  {
  }

  lemma VideosPart10Probes()
    ensures "" !in VideosPart10()
      && ".jpg" !in VideosPart10()
      && ".pdf" !in VideosPart10()
      && ".mp3" !in VideosPart10()
      && ".flac" !in VideosPart10()
      && ".odt" !in VideosPart10()
      && ".vhd" !in VideosPart10()
      && ".dmg" !in VideosPart10()
      && ".webm" !in VideosPart10()
      && ".s" !in VideosPart10()
      && ".m" !in VideosPart10()
      && ".M" !in VideosPart10()
      && ".tar.gz" !in VideosPart10()
  {
  }

  /** `VideosExtensions` is well cased. */
  lemma VideosCase()
    ensures WellCased(VideosExtensions())
  {
    VideosPart1Case();
    VideosPart2Case();
    VideosPart3Case();
    VideosPart4Case();
    VideosPart5Case();
    VideosPart6Case();
    VideosPart7Case();
    VideosPart8Case();
    VideosPart9Case();
    VideosPart10Case();
  }

  /** Which probe extensions `VideosExtensions` lists. */
  lemma VideosProbes()
    ensures ".mp4" in VideosExtensions()
      && "" !in VideosExtensions()
      && ".jpg" !in VideosExtensions()
      && ".pdf" !in VideosExtensions()
      && ".mp3" !in VideosExtensions()
      && ".flac" !in VideosExtensions()
      && ".odt" !in VideosExtensions()
      && ".vhd" !in VideosExtensions()
      && ".dmg" !in VideosExtensions()
      && ".webm" in VideosExtensions()
      && ".s" !in VideosExtensions()
      && ".m" !in VideosExtensions()
      && ".M" !in VideosExtensions()
      && ".tar.gz" !in VideosExtensions()
  {
    VideosPart1Probes();
    VideosPart2Probes();
    VideosPart3Probes();
    VideosPart4Probes();
    VideosPart5Probes();
    VideosPart6Probes();
    VideosPart7Probes();
    VideosPart8Probes();
    VideosPart9Probes();
    VideosPart10Probes();
  }

  lemma ThreeDPart1Case()
    ensures WellCased(ThreeDPart1())
  {
  }

  lemma ThreeDPart1Probes()
    ensures "" !in ThreeDPart1()
      && ".jpg" !in ThreeDPart1()
      && ".pdf" !in ThreeDPart1()
      && ".mp3" !in ThreeDPart1()
      && ".flac" !in ThreeDPart1()
      && ".odt" !in ThreeDPart1()
      && ".vhd" !in ThreeDPart1()
      && ".dmg" !in ThreeDPart1()
      && ".webm" !in ThreeDPart1()
      && ".s" !in ThreeDPart1()
      && ".m" !in ThreeDPart1()
      && ".M" !in ThreeDPart1()
      && ".tar.gz" !in ThreeDPart1()
  {
  }

  lemma ThreeDPart2Case()
    ensures WellCased(ThreeDPart2())
  {
  }

  lemma ThreeDPart2Probes()
    ensures "" !in ThreeDPart2()
      && ".jpg" !in ThreeDPart2()
      && ".pdf" !in ThreeDPart2()
      && ".mp3" !in ThreeDPart2()
      && ".flac" !in ThreeDPart2()
      && ".odt" !in ThreeDPart2()
      && ".vhd" !in ThreeDPart2()
      && ".dmg" !in ThreeDPart2()
      && ".webm" !in ThreeDPart2()
      && ".s" !in ThreeDPart2()
      && ".m" !in ThreeDPart2()
      && ".M" !in ThreeDPart2()
      && ".tar.gz" !in ThreeDPart2()
  {
  }

  lemma ThreeDPart3Case()
    ensures WellCased(ThreeDPart3())
  {
  }

  lemma ThreeDPart3Probes()
    ensures "" !in ThreeDPart3()
      && ".jpg" !in ThreeDPart3()
      && ".pdf" !in ThreeDPart3()
      && ".mp3" !in ThreeDPart3()
      && ".flac" !in ThreeDPart3()
      && ".odt" !in ThreeDPart3()
      && ".vhd" !in ThreeDPart3()
      && ".dmg" !in ThreeDPart3()
      && ".webm" !in ThreeDPart3()
      && ".s" !in ThreeDPart3()
      && ".m" !in ThreeDPart3()
      && ".M" !in ThreeDPart3()
      && ".tar.gz" !in ThreeDPart3()
  {
  }

  lemma ThreeDPart4Case()
    ensures WellCased(ThreeDPart4())
  {
  }

  lemma ThreeDPart4Probes()
    ensures "" !in ThreeDPart4()
      && ".jpg" !in ThreeDPart4()
      && ".pdf" !in ThreeDPart4()
      && ".mp3" !in ThreeDPart4()
      && ".flac" !in ThreeDPart4()
      && ".odt" !in ThreeDPart4()
      && ".vhd" !in ThreeDPart4()
      && ".dmg" !in ThreeDPart4()
      && ".webm" !in ThreeDPart4()
      && ".s" !in ThreeDPart4()
      && ".m" !in ThreeDPart4()
      && ".M" !in ThreeDPart4()
      && ".tar.gz" !in ThreeDPart4()
  {
  }

  lemma ThreeDPart5Case()
    ensures WellCased(ThreeDPart5())
  {
  }

  lemma ThreeDPart5Probes()
    ensures "" !in ThreeDPart5()
      && ".jpg" !in ThreeDPart5()
      && ".pdf" !in ThreeDPart5()
      && ".mp3" !in ThreeDPart5()
      && ".flac" !in ThreeDPart5()
      && ".odt" !in ThreeDPart5()
      && ".vhd" !in ThreeDPart5()
      && ".dmg" !in ThreeDPart5()
      && ".webm" !in ThreeDPart5()
      && ".s" !in ThreeDPart5()
      && ".m" !in ThreeDPart5()
      && ".M" !in ThreeDPart5()
      && ".tar.gz" !in ThreeDPart5()
  {
  }

  lemma ThreeDPart6Case()
    ensures WellCased(ThreeDPart6())
  {
  }

  lemma ThreeDPart6Probes()
    ensures "" !in ThreeDPart6()
      && ".jpg" !in ThreeDPart6()
      && ".pdf" !in ThreeDPart6()
      && ".mp3" !in ThreeDPart6()
      && ".flac" !in ThreeDPart6()
      && ".odt" !in ThreeDPart6()
      && ".vhd" !in ThreeDPart6()
      && ".dmg" !in ThreeDPart6()
      && ".webm" !in ThreeDPart6()
      && ".s" !in ThreeDPart6()
      && ".m" !in ThreeDPart6()
      && ".M" !in ThreeDPart6()
      && ".tar.gz" !in ThreeDPart6()
  {
  }

  lemma ThreeDPart7Case()
    ensures WellCased(ThreeDPart7())
  {
  }

  lemma ThreeDPart7Probes()
    ensures "" !in ThreeDPart7()
      && ".jpg" !in ThreeDPart7()
      && ".pdf" !in ThreeDPart7()
      && ".mp3" !in ThreeDPart7()
      && ".flac" !in ThreeDPart7()
      && ".odt" !in ThreeDPart7()
      && ".vhd" !in ThreeDPart7()
      && ".dmg" !in ThreeDPart7()
      && ".webm" !in ThreeDPart7()
      && ".s" !in ThreeDPart7()
      && ".m" !in ThreeDPart7()
      && ".M" !in ThreeDPart7()
      && ".tar.gz" !in ThreeDPart7()
  {
  }

  /** `ThreeDExtensions` is well cased. */
  lemma ThreeDCase()
    ensures WellCased(ThreeDExtensions())
  {
    ThreeDPart1Case();
    ThreeDPart2Case();
    ThreeDPart3Case();
    ThreeDPart4Case();
    ThreeDPart5Case();
    ThreeDPart6Case();
    ThreeDPart7Case();
  }

  /** Which probe extensions `ThreeDExtensions` lists. */
  lemma ThreeDProbes()
    ensures ".obj" in ThreeDExtensions()
      && "" !in ThreeDExtensions()
      && ".jpg" !in ThreeDExtensions()
      && ".pdf" !in ThreeDExtensions()
      && ".mp3" !in ThreeDExtensions()
      && ".flac" !in ThreeDExtensions()
      && ".odt" !in ThreeDExtensions()
      && ".vhd" !in ThreeDExtensions()
      && ".dmg" !in ThreeDExtensions()
      && ".webm" !in ThreeDExtensions()
      && ".s" !in ThreeDExtensions()
      && ".m" !in ThreeDExtensions()
      && ".M" !in ThreeDExtensions()
      && ".tar.gz" !in ThreeDExtensions()
  {
    ThreeDPart1Probes();
    ThreeDPart2Probes();
    ThreeDPart3Probes();
    ThreeDPart4Probes();
    ThreeDPart5Probes();
    ThreeDPart6Probes();
    ThreeDPart7Probes();
  }

  lemma DiskImagesPart1Case()
    ensures WellCased(DiskImagesPart1())
  {
  }

  lemma DiskImagesPart1Probes()
    ensures "" !in DiskImagesPart1()
      && ".jpg" !in DiskImagesPart1()
      && ".pdf" !in DiskImagesPart1()
      && ".mp3" !in DiskImagesPart1()
      && ".flac" !in DiskImagesPart1()
      && ".odt" !in DiskImagesPart1()
      && ".vhd" in DiskImagesPart1()
      && ".dmg" in DiskImagesPart1()
      && ".webm" !in DiskImagesPart1()
      && ".s" !in DiskImagesPart1()
      && ".m" !in DiskImagesPart1()
      && ".M" !in DiskImagesPart1()
      && ".tar.gz" !in DiskImagesPart1()
  {
  }

  lemma DiskImagesPart2Case()
    ensures WellCased(DiskImagesPart2())
  {
  }

  lemma DiskImagesPart2Probes()
    ensures "" !in DiskImagesPart2()
      && ".jpg" !in DiskImagesPart2()
      && ".pdf" !in DiskImagesPart2()
      && ".mp3" !in DiskImagesPart2()
      && ".flac" !in DiskImagesPart2()
      && ".odt" !in DiskImagesPart2()
      && ".vhd" !in DiskImagesPart2()
      && ".dmg" !in DiskImagesPart2()
      && ".webm" !in DiskImagesPart2()
      && ".s" !in DiskImagesPart2()
      && ".m" !in DiskImagesPart2()
      && ".M" !in DiskImagesPart2()
      && ".tar.gz" !in DiskImagesPart2()
  {
  }

  lemma DiskImagesPart3Case()
    ensures WellCased(DiskImagesPart3())
  {
  }

  lemma DiskImagesPart3Probes()
    ensures "" !in DiskImagesPart3()
      && ".jpg" !in DiskImagesPart3()
      && ".pdf" !in DiskImagesPart3()
      && ".mp3" !in DiskImagesPart3()
      && ".flac" !in DiskImagesPart3()
      && ".odt" !in DiskImagesPart3()
      && ".vhd" !in DiskImagesPart3()
      && ".dmg" !in DiskImagesPart3()
      && ".webm" !in DiskImagesPart3()
      && ".s" !in DiskImagesPart3()
      && ".m" !in DiskImagesPart3()
      && ".M" !in DiskImagesPart3()
      && ".tar.gz" !in DiskImagesPart3()
  {
  }

  lemma DiskImagesPart4Case()
    ensures WellCased(DiskImagesPart4())
  {
  }

  lemma DiskImagesPart4Probes()
    ensures "" !in DiskImagesPart4()
      && ".jpg" !in DiskImagesPart4()
      && ".pdf" !in DiskImagesPart4()
      && ".mp3" !in DiskImagesPart4()
      && ".flac" !in DiskImagesPart4()
      && ".odt" !in DiskImagesPart4()
      && ".vhd" !in DiskImagesPart4()
      && ".dmg" !in DiskImagesPart4()
      && ".webm" !in DiskImagesPart4()
      && ".s" !in DiskImagesPart4()
      && ".m" !in DiskImagesPart4()
      && ".M" !in DiskImagesPart4()
      && ".tar.gz" !in DiskImagesPart4()
  {
  }

  lemma DiskImagesPart5Case()
    ensures WellCased(DiskImagesPart5())
  {
  }

  lemma DiskImagesPart5Probes()
    ensures "" !in DiskImagesPart5()
      && ".jpg" !in DiskImagesPart5()
      && ".pdf" !in DiskImagesPart5()
      && ".mp3" !in DiskImagesPart5()
      && ".flac" in DiskImagesPart5()
      && ".odt" !in DiskImagesPart5()
      && ".vhd" !in DiskImagesPart5()
      && ".dmg" !in DiskImagesPart5()
      && ".webm" !in DiskImagesPart5()
      && ".s" !in DiskImagesPart5()
      && ".m" !in DiskImagesPart5()
      && ".M" !in DiskImagesPart5()
      && ".tar.gz" !in DiskImagesPart5()
  {
  }

  lemma DiskImagesPart6Case()
    ensures WellCased(DiskImagesPart6())
  {
  }

  lemma DiskImagesPart6Probes()
    ensures "" !in DiskImagesPart6()
      && ".jpg" !in DiskImagesPart6()
      && ".pdf" !in DiskImagesPart6()
      && ".mp3" !in DiskImagesPart6()
      && ".flac" !in DiskImagesPart6()
      && ".odt" !in DiskImagesPart6()
      && ".vhd" !in DiskImagesPart6()
      && ".dmg" !in DiskImagesPart6()
      && ".webm" !in DiskImagesPart6()
      && ".s" !in DiskImagesPart6()
      && ".m" !in DiskImagesPart6()
      && ".M" !in DiskImagesPart6()
      && ".tar.gz" !in DiskImagesPart6()
  {
  }

  lemma DiskImagesPart7Case()
    ensures WellCased(DiskImagesPart7())
  {
  }

  lemma DiskImagesPart7Probes()
    ensures "" !in DiskImagesPart7()
      && ".jpg" !in DiskImagesPart7()
      && ".pdf" !in DiskImagesPart7()
      && ".mp3" !in DiskImagesPart7()
      && ".flac" !in DiskImagesPart7()
      && ".odt" !in DiskImagesPart7()
      && ".vhd" !in DiskImagesPart7()
      && ".dmg" !in DiskImagesPart7()
      && ".webm" !in DiskImagesPart7()
      && ".s" !in DiskImagesPart7()
      && ".m" !in DiskImagesPart7()
      && ".M" !in DiskImagesPart7()
      && ".tar.gz" !in DiskImagesPart7()
  {
  }

  /** `DiskImagesExtensions` is well cased. */
  lemma DiskImagesCase()
    ensures WellCased(DiskImagesExtensions())
  {
    DiskImagesPart1Case();
    DiskImagesPart2Case();
    DiskImagesPart3Case();
    DiskImagesPart4Case();
    DiskImagesPart5Case();
    DiskImagesPart6Case();
    DiskImagesPart7Case();
  }

  /** Which probe extensions `DiskImagesExtensions` lists. */
  lemma DiskImagesProbes()
    ensures ".iso" in DiskImagesExtensions()
      && "" !in DiskImagesExtensions()
      && ".jpg" !in DiskImagesExtensions()
      && ".pdf" !in DiskImagesExtensions()
      && ".mp3" !in DiskImagesExtensions()
      && ".flac" in DiskImagesExtensions()
      && ".odt" !in DiskImagesExtensions()
      && ".vhd" in DiskImagesExtensions()
      && ".dmg" in DiskImagesExtensions()
      && ".webm" !in DiskImagesExtensions()
      && ".s" !in DiskImagesExtensions()
      && ".m" !in DiskImagesExtensions()
      && ".M" !in DiskImagesExtensions()
      && ".tar.gz" !in DiskImagesExtensions()
  {
    DiskImagesPart1Probes();
    DiskImagesPart2Probes();
    DiskImagesPart3Probes();
    DiskImagesPart4Probes();
    DiskImagesPart5Probes();
    DiskImagesPart6Probes();
    DiskImagesPart7Probes();
  }

  lemma VMsPart1Case()
    ensures WellCased(VMsPart1())
  {
  }

  lemma VMsPart1Probes()
    ensures "" !in VMsPart1()
      && ".jpg" !in VMsPart1()
      && ".pdf" !in VMsPart1()
      && ".mp3" !in VMsPart1()
      && ".flac" !in VMsPart1()
      && ".odt" !in VMsPart1()
      && ".vhd" !in VMsPart1()
      && ".dmg" !in VMsPart1()
      && ".webm" !in VMsPart1()
      && ".s" !in VMsPart1()
      && ".m" !in VMsPart1()
      && ".M" !in VMsPart1()
      && ".tar.gz" !in VMsPart1()
  {
  }

  lemma VMsPart2Case()
    ensures WellCased(VMsPart2())
  {
  }

  lemma VMsPart2Probes()
    ensures "" !in VMsPart2()
      && ".jpg" !in VMsPart2()
      && ".pdf" !in VMsPart2()
      && ".mp3" !in VMsPart2()
      && ".flac" !in VMsPart2()
      && ".odt" !in VMsPart2()
      && ".vhd" !in VMsPart2()
      && ".dmg" !in VMsPart2()
      && ".webm" !in VMsPart2()
      && ".s" !in VMsPart2()
      && ".m" !in VMsPart2()
      && ".M" !in VMsPart2()
      && ".tar.gz" !in VMsPart2()
  {
  }

  lemma VMsPart3Case()
    ensures WellCased(VMsPart3())
  {
  }

  lemma VMsPart3Probes()
    ensures "" !in VMsPart3()
      && ".jpg" !in VMsPart3()
      && ".pdf" !in VMsPart3()
      && ".mp3" !in VMsPart3()
      && ".flac" !in VMsPart3()
      && ".odt" !in VMsPart3()
      && ".vhd" in VMsPart3()
      && ".dmg" !in VMsPart3()
      && ".webm" !in VMsPart3()
      && ".s" !in VMsPart3()
      && ".m" !in VMsPart3()
      && ".M" !in VMsPart3()
      && ".tar.gz" !in VMsPart3()
  {
  }

  lemma VMsPart4Case()
    ensures WellCased(VMsPart4())
  {
  }

  lemma VMsPart4Probes()
    ensures "" !in VMsPart4()
      && ".jpg" !in VMsPart4()
      && ".pdf" !in VMsPart4()
      && ".mp3" !in VMsPart4()
      && ".flac" !in VMsPart4()
      && ".odt" !in VMsPart4()
      && ".vhd" !in VMsPart4()
      && ".dmg" !in VMsPart4()
      && ".webm" !in VMsPart4()
      && ".s" !in VMsPart4()
      && ".m" !in VMsPart4()
      && ".M" !in VMsPart4()
      && ".tar.gz" !in VMsPart4()
  {
  }

  /** `VMsExtensions` is well cased. */
  lemma VMsCase()
    ensures WellCased(VMsExtensions())
  {
    VMsPart1Case();
    VMsPart2Case();
    VMsPart3Case();
    VMsPart4Case();
  }

  /** Which probe extensions `VMsExtensions` lists. */
  lemma VMsProbes()
    ensures ".ova" in VMsExtensions()
      && "" !in VMsExtensions()
      && ".jpg" !in VMsExtensions()
      && ".pdf" !in VMsExtensions()
      && ".mp3" !in VMsExtensions()
      && ".flac" !in VMsExtensions()
      && ".odt" !in VMsExtensions()
      && ".vhd" in VMsExtensions()
      && ".dmg" !in VMsExtensions()
      && ".webm" !in VMsExtensions()
      && ".s" !in VMsExtensions()
      && ".m" !in VMsExtensions()
      && ".M" !in VMsExtensions()
      && ".tar.gz" !in VMsExtensions()
  {
    VMsPart1Probes();
    VMsPart2Probes();
    VMsPart3Probes();
    VMsPart4Probes();
  }

  lemma AudioPart1Case()
    ensures WellCased(AudioPart1())
  {
  }

  lemma AudioPart1Probes()
    ensures "" !in AudioPart1()
      && ".jpg" !in AudioPart1()
      && ".pdf" !in AudioPart1()
      && ".mp3" in AudioPart1()
      && ".flac" in AudioPart1()
      && ".odt" !in AudioPart1()
      && ".vhd" !in AudioPart1()
      && ".dmg" !in AudioPart1()
      && ".webm" !in AudioPart1()
      && ".s" !in AudioPart1()
      && ".m" !in AudioPart1()
      && ".M" !in AudioPart1()
      && ".tar.gz" !in AudioPart1()
  {
  }

  lemma AudioPart2Case()
    ensures WellCased(AudioPart2())
  {
  }

  lemma AudioPart2Probes()
    ensures "" !in AudioPart2()
      && ".jpg" !in AudioPart2()
      && ".pdf" !in AudioPart2()
      && ".mp3" !in AudioPart2()
      && ".flac" !in AudioPart2()
      && ".odt" !in AudioPart2()
      && ".vhd" !in AudioPart2()
      && ".dmg" !in AudioPart2()
      && ".webm" !in AudioPart2()
      && ".s" !in AudioPart2()
      && ".m" !in AudioPart2()
      && ".M" !in AudioPart2()
      && ".tar.gz" !in AudioPart2()
  {
  }

  lemma AudioPart3Case()
    ensures WellCased(AudioPart3())
  {
  }

  lemma AudioPart3Probes()
    ensures "" !in AudioPart3()
      && ".jpg" !in AudioPart3()
      && ".pdf" !in AudioPart3()
      && ".mp3" !in AudioPart3()
      && ".flac" !in AudioPart3()
      && ".odt" !in AudioPart3()
      && ".vhd" !in AudioPart3()
      && ".dmg" !in AudioPart3()
      && ".webm" !in AudioPart3()
      && ".s" !in AudioPart3()
      && ".m" !in AudioPart3()
      && ".M" !in AudioPart3()
      && ".tar.gz" !in AudioPart3()
  {
  }

  lemma AudioPart4Case()
    ensures WellCased(AudioPart4())
  {
  }

  lemma AudioPart4Probes()
    ensures "" !in AudioPart4()
      && ".jpg" !in AudioPart4()
      && ".pdf" !in AudioPart4()
      && ".mp3" !in AudioPart4()
      && ".flac" !in AudioPart4()
      && ".odt" !in AudioPart4()
      && ".vhd" !in AudioPart4()
      && ".dmg" !in AudioPart4()
      && ".webm" !in AudioPart4()
      && ".s" !in AudioPart4()
      && ".m" !in AudioPart4()
      && ".M" !in AudioPart4()
      && ".tar.gz" !in AudioPart4()
  {
  }

  lemma AudioPart5Case()
    ensures WellCased(AudioPart5())
  {
  }

  lemma AudioPart5Probes()
    ensures "" !in AudioPart5()
      && ".jpg" !in AudioPart5()
      && ".pdf" !in AudioPart5()
      && ".mp3" !in AudioPart5()
      && ".flac" !in AudioPart5()
      && ".odt" !in AudioPart5()
      && ".vhd" !in AudioPart5()
      && ".dmg" !in AudioPart5()
      && ".webm" in AudioPart5()
      && ".s" !in AudioPart5()
      && ".m" !in AudioPart5()
      && ".M" !in AudioPart5()
      && ".tar.gz" !in AudioPart5()
  {
  }

  lemma AudioPart6Case()
    ensures WellCased(AudioPart6())
  {
  }

  lemma AudioPart6Probes()
    ensures "" !in AudioPart6()
      && ".jpg" !in AudioPart6()
      && ".pdf" !in AudioPart6()
      && ".mp3" !in AudioPart6()
      && ".flac" !in AudioPart6()
      && ".odt" !in AudioPart6()
      && ".vhd" !in AudioPart6()
      && ".dmg" !in AudioPart6()
      && ".webm" !in AudioPart6()
      && ".s" !in AudioPart6()
      && ".m" !in AudioPart6()
      && ".M" !in AudioPart6()
      && ".tar.gz" !in AudioPart6()
  {
  }

  lemma AudioPart7Case()
    ensures WellCased(AudioPart7())
  {
  }

  lemma AudioPart7Probes()
    ensures "" !in AudioPart7()
      && ".jpg" !in AudioPart7()
      && ".pdf" !in AudioPart7()
      && ".mp3" !in AudioPart7()
      && ".flac" !in AudioPart7()
      && ".odt" !in AudioPart7()
      && ".vhd" !in AudioPart7()
      && ".dmg" !in AudioPart7()
      && ".webm" !in AudioPart7()
      && ".s" !in AudioPart7()
      && ".m" !in AudioPart7()
      && ".M" !in AudioPart7()
      && ".tar.gz" !in AudioPart7()
  {
  }

  lemma AudioPart8Case()
    ensures WellCased(AudioPart8())
  {
  }

  lemma AudioPart8Probes()
    ensures "" !in AudioPart8()
      && ".jpg" !in AudioPart8()
      && ".pdf" !in AudioPart8()
      && ".mp3" !in AudioPart8()
      && ".flac" !in AudioPart8()
      && ".odt" !in AudioPart8()
      && ".vhd" !in AudioPart8()
      && ".dmg" !in AudioPart8()
      && ".webm" !in AudioPart8()
      && ".s" !in AudioPart8()
      && ".m" !in AudioPart8()
      && ".M" !in AudioPart8()
      && ".tar.gz" !in AudioPart8()
  {
  }

  lemma AudioPart9Case()
    ensures WellCased(AudioPart9())
  {
  }

  lemma AudioPart9Probes()
    ensures "" !in AudioPart9()
      && ".jpg" !in AudioPart9()
      && ".pdf" !in AudioPart9()
      && ".mp3" !in AudioPart9()
      && ".flac" !in AudioPart9()
      && ".odt" !in AudioPart9()
      && ".vhd" !in AudioPart9()
      && ".dmg" !in AudioPart9()
      && ".webm" !in AudioPart9()
      && ".s" !in AudioPart9()
      && ".m" !in AudioPart9()
      && ".M" !in AudioPart9()
      && ".tar.gz" !in AudioPart9()
  {
  }

  lemma AudioPart10Case()
    ensures WellCased(AudioPart10())
  {
  }

  lemma AudioPart10Probes()
    ensures "" !in AudioPart10()
      && ".jpg" !in AudioPart10()
      && ".pdf" !in AudioPart10()
      && ".mp3" !in AudioPart10()
      && ".flac" !in AudioPart10()
      && ".odt" !in AudioPart10()
      && ".vhd" !in AudioPart10()
      && ".dmg" !in AudioPart10()
      && ".webm" !in AudioPart10()
      && ".s" !in AudioPart10()
      && ".m" !in AudioPart10()
      && ".M" !in AudioPart10()
      && ".tar.gz" !in AudioPart10()
  {
  }

  lemma AudioPart11Case()
    ensures WellCased(AudioPart11())
  {
  }

  lemma AudioPart11Probes()
    ensures "" !in AudioPart11()
      && ".jpg" !in AudioPart11()
      && ".pdf" !in AudioPart11()
      && ".mp3" !in AudioPart11()
      && ".flac" !in AudioPart11()
      && ".odt" !in AudioPart11()
      && ".vhd" !in AudioPart11()
      && ".dmg" !in AudioPart11()
      && ".webm" !in AudioPart11()
      && ".s" !in AudioPart11()
      && ".m" !in AudioPart11()
      && ".M" !in AudioPart11()
      && ".tar.gz" !in AudioPart11()
  {
  }

  /** `AudioExtensions` is well cased. */
  lemma AudioCase()
    ensures WellCased(AudioExtensions())
  {
    AudioPart1Case();
    AudioPart2Case();
    AudioPart3Case();
    AudioPart4Case();
    AudioPart5Case();
    AudioPart6Case();
    AudioPart7Case();
    AudioPart8Case();
    AudioPart9Case();
    AudioPart10Case();
    AudioPart11Case();
  }

  /** Which probe extensions `AudioExtensions` lists. */
  lemma AudioProbes()
    ensures "" !in AudioExtensions()
      && ".jpg" !in AudioExtensions()
      && ".pdf" !in AudioExtensions()
      && ".mp3" in AudioExtensions()
      && ".flac" in AudioExtensions()
      && ".odt" !in AudioExtensions()
      && ".vhd" !in AudioExtensions()
      && ".dmg" !in AudioExtensions()
      && ".webm" in AudioExtensions()
      && ".s" !in AudioExtensions()
      && ".m" !in AudioExtensions()
      && ".M" !in AudioExtensions()
      && ".tar.gz" !in AudioExtensions()
  {
    AudioPart1Probes();
    AudioPart2Probes();
    AudioPart3Probes();
    AudioPart4Probes();
    AudioPart5Probes();
    AudioPart6Probes();
    AudioPart7Probes();
    AudioPart8Probes();
    AudioPart9Probes();
    AudioPart10Probes();
    AudioPart11Probes();
  }

  lemma EbooksPart1Case()
    ensures WellCased(EbooksPart1())
  {
  }

  lemma EbooksPart1Probes()
    ensures "" !in EbooksPart1()
      && ".jpg" !in EbooksPart1()
      && ".pdf" !in EbooksPart1()
      && ".mp3" !in EbooksPart1()
      && ".flac" !in EbooksPart1()
      && ".odt" !in EbooksPart1()
      && ".vhd" !in EbooksPart1()
      && ".dmg" !in EbooksPart1()
      && ".webm" !in EbooksPart1()
      && ".s" !in EbooksPart1()
      && ".m" !in EbooksPart1()
      && ".M" !in EbooksPart1()
      && ".tar.gz" !in EbooksPart1()
  {
  }

  lemma EbooksPart2Case()
    ensures WellCased(EbooksPart2())
  {
  }

  lemma EbooksPart2Probes()
    ensures "" !in EbooksPart2()
      && ".jpg" !in EbooksPart2()
      && ".pdf" !in EbooksPart2()
      && ".mp3" !in EbooksPart2()
      && ".flac" !in EbooksPart2()
      && ".odt" !in EbooksPart2()
      && ".vhd" !in EbooksPart2()
      && ".dmg" !in EbooksPart2()
      && ".webm" !in EbooksPart2()
      && ".s" !in EbooksPart2()
      && ".m" !in EbooksPart2()
      && ".M" !in EbooksPart2()
      && ".tar.gz" !in EbooksPart2()
  {
  }

  lemma EbooksPart3Case()
    ensures WellCased(EbooksPart3())
  {
  }

  lemma EbooksPart3Probes()
    ensures "" !in EbooksPart3()
      && ".jpg" !in EbooksPart3()
      && ".pdf" !in EbooksPart3()
      && ".mp3" !in EbooksPart3()
      && ".flac" !in EbooksPart3()
      && ".odt" !in EbooksPart3()
      && ".vhd" !in EbooksPart3()
      && ".dmg" !in EbooksPart3()
      && ".webm" !in EbooksPart3()
      && ".s" !in EbooksPart3()
      && ".m" !in EbooksPart3()
      && ".M" !in EbooksPart3()
      && ".tar.gz" !in EbooksPart3()
  {
  }

  lemma EbooksPart4Case()
    ensures WellCased(EbooksPart4())
  {
  }

  lemma EbooksPart4Probes()
    ensures "" !in EbooksPart4()
      && ".jpg" !in EbooksPart4()
      && ".pdf" !in EbooksPart4()
      && ".mp3" !in EbooksPart4()
      && ".flac" !in EbooksPart4()
      && ".odt" !in EbooksPart4()
      && ".vhd" !in EbooksPart4()
      && ".dmg" !in EbooksPart4()
      && ".webm" !in EbooksPart4()
      && ".s" !in EbooksPart4()
      && ".m" !in EbooksPart4()
      && ".M" !in EbooksPart4()
      && ".tar.gz" !in EbooksPart4()
  {
  }

  lemma EbooksPart5Case()
    ensures WellCased(EbooksPart5())
  {
  }

  lemma EbooksPart5Probes()
    ensures "" !in EbooksPart5()
      && ".jpg" !in EbooksPart5()
      && ".pdf" !in EbooksPart5()
      && ".mp3" !in EbooksPart5()
      && ".flac" !in EbooksPart5()
      && ".odt" !in EbooksPart5()
      && ".vhd" !in EbooksPart5()
      && ".dmg" !in EbooksPart5()
      && ".webm" !in EbooksPart5()
      && ".s" !in EbooksPart5()
      && ".m" !in EbooksPart5()
      && ".M" !in EbooksPart5()
      && ".tar.gz" !in EbooksPart5()
  {
  }

  lemma EbooksPart6Case()
    ensures WellCased(EbooksPart6())
  {
  }

  lemma EbooksPart6Probes()
    ensures "" !in EbooksPart6()
      && ".jpg" !in EbooksPart6()
      && ".pdf" !in EbooksPart6()
      && ".mp3" !in EbooksPart6()
      && ".flac" !in EbooksPart6()
      && ".odt" in EbooksPart6()
      && ".vhd" !in EbooksPart6()
      && ".dmg" !in EbooksPart6()
      && ".webm" !in EbooksPart6()
      && ".s" !in EbooksPart6()
      && ".m" !in EbooksPart6()
      && ".M" !in EbooksPart6()
      && ".tar.gz" !in EbooksPart6()
  {
  }

  lemma EbooksPart7Case()
    ensures WellCased(EbooksPart7())
  {
  }

  lemma EbooksPart7Probes()
    ensures "" !in EbooksPart7()
      && ".jpg" !in EbooksPart7()
      && ".pdf" !in EbooksPart7()
      && ".mp3" !in EbooksPart7()
      && ".flac" !in EbooksPart7()
      && ".odt" !in EbooksPart7()
      && ".vhd" !in EbooksPart7()
      && ".dmg" !in EbooksPart7()
      && ".webm" !in EbooksPart7()
      && ".s" !in EbooksPart7()
      && ".m" !in EbooksPart7()
      && ".M" !in EbooksPart7()
      && ".tar.gz" !in EbooksPart7()
  {
  }

  lemma EbooksPart8Case()
    ensures WellCased(EbooksPart8())
  {
  }

  lemma EbooksPart8Probes()
    ensures "" !in EbooksPart8()
      && ".jpg" !in EbooksPart8()
      && ".pdf" !in EbooksPart8()
      && ".mp3" !in EbooksPart8()
      && ".flac" !in EbooksPart8()
      && ".odt" !in EbooksPart8()
      && ".vhd" !in EbooksPart8()
      && ".dmg" !in EbooksPart8()
      && ".webm" !in EbooksPart8()
      && ".s" !in EbooksPart8()
      && ".m" !in EbooksPart8()
      && ".M" !in EbooksPart8()
      && ".tar.gz" !in EbooksPart8()
  {
  }

  lemma EbooksPart9Case()
    ensures WellCased(EbooksPart9())
  {
  }

  lemma EbooksPart9Probes()
    ensures "" !in EbooksPart9()
      && ".jpg" !in EbooksPart9()
      && ".pdf" !in EbooksPart9()
      && ".mp3" !in EbooksPart9()
      && ".flac" !in EbooksPart9()
      && ".odt" !in EbooksPart9()
      && ".vhd" !in EbooksPart9()
      && ".dmg" !in EbooksPart9()
      && ".webm" !in EbooksPart9()
      && ".s" !in EbooksPart9()
      && ".m" !in EbooksPart9()
      && ".M" !in EbooksPart9()
      && ".tar.gz" !in EbooksPart9()
  {
  }

  lemma EbooksPart10Case()
    ensures WellCased(EbooksPart10())
  {
  }

  lemma EbooksPart10Probes()
    ensures "" !in EbooksPart10()
      && ".jpg" !in EbooksPart10()
      && ".pdf" !in EbooksPart10()
      && ".mp3" !in EbooksPart10()
      && ".flac" !in EbooksPart10()
      && ".odt" !in EbooksPart10()
      && ".vhd" !in EbooksPart10()
      && ".dmg" !in EbooksPart10()
      && ".webm" !in EbooksPart10()
      && ".s" !in EbooksPart10()
      && ".m" !in EbooksPart10()
      && ".M" !in EbooksPart10()
      && ".tar.gz" !in EbooksPart10()
  {
  }

  lemma EbooksPart11Case()
    ensures WellCased(EbooksPart11())
  {
  }

  lemma EbooksPart11Probes()
    ensures "" !in EbooksPart11()
      && ".jpg" !in EbooksPart11()
      && ".pdf" !in EbooksPart11()
      && ".mp3" !in EbooksPart11()
      && ".flac" !in EbooksPart11()
      && ".odt" !in EbooksPart11()
      && ".vhd" !in EbooksPart11()
      && ".dmg" !in EbooksPart11()
      && ".webm" !in EbooksPart11()
      && ".s" !in EbooksPart11()
      && ".m" !in EbooksPart11()
      && ".M" !in EbooksPart11()
      && ".tar.gz" !in EbooksPart11()
  {
  }

  lemma EbooksPart12Case()
    ensures WellCased(EbooksPart12())
  {
  }

  lemma EbooksPart12Probes()
    ensures "" !in EbooksPart12()
      && ".jpg" !in EbooksPart12()
      && ".pdf" !in EbooksPart12()
      && ".mp3" !in EbooksPart12()
      && ".flac" !in EbooksPart12()
      && ".odt" !in EbooksPart12()
      && ".vhd" !in EbooksPart12()
      && ".dmg" !in EbooksPart12()
      && ".webm" !in EbooksPart12()
      && ".s" !in EbooksPart12()
      && ".m" !in EbooksPart12()
      && ".M" !in EbooksPart12()
      && ".tar.gz" !in EbooksPart12()
  {
  }

  lemma EbooksPart13Case()
    ensures WellCased(EbooksPart13())
  {
  }

  lemma EbooksPart13Probes()
    ensures "" !in EbooksPart13()
      && ".jpg" !in EbooksPart13()
      && ".pdf" !in EbooksPart13()
      && ".mp3" !in EbooksPart13()
      && ".flac" !in EbooksPart13()
      && ".odt" !in EbooksPart13()
      && ".vhd" !in EbooksPart13()
      && ".dmg" !in EbooksPart13()
      && ".webm" !in EbooksPart13()
      && ".s" !in EbooksPart13()
      && ".m" !in EbooksPart13()
      && ".M" !in EbooksPart13()
      && ".tar.gz" !in EbooksPart13()
  {
  }

  lemma EbooksPart14Case()
    ensures WellCased(EbooksPart14())
  {
  }

  lemma EbooksPart14Probes()
    ensures "" !in EbooksPart14()
      && ".jpg" !in EbooksPart14()
      && ".pdf" !in EbooksPart14()
      && ".mp3" !in EbooksPart14()
      && ".flac" !in EbooksPart14()
      && ".odt" !in EbooksPart14()
      && ".vhd" !in EbooksPart14()
      && ".dmg" !in EbooksPart14()
      && ".webm" !in EbooksPart14()
      && ".s" !in EbooksPart14()
      && ".m" !in EbooksPart14()
      && ".M" !in EbooksPart14()
      && ".tar.gz" !in EbooksPart14()
  {
  }

  lemma EbooksPart15Case()
    ensures WellCased(EbooksPart15())
  {
  }

  lemma EbooksPart15Probes()
    ensures "" !in EbooksPart15()
      && ".jpg" !in EbooksPart15()
      && ".pdf" !in EbooksPart15()
      && ".mp3" !in EbooksPart15()
      && ".flac" !in EbooksPart15()
      && ".odt" !in EbooksPart15()
      && ".vhd" !in EbooksPart15()
      && ".dmg" !in EbooksPart15()
      && ".webm" !in EbooksPart15()
      && ".s" !in EbooksPart15()
      && ".m" !in EbooksPart15()
      && ".M" !in EbooksPart15()
      && ".tar.gz" !in EbooksPart15()
  {
  }

  lemma EbooksPart16Case()
    ensures WellCased(EbooksPart16())
  {
  }

  lemma EbooksPart16Probes()
    ensures "" !in EbooksPart16()
      && ".jpg" !in EbooksPart16()
      && ".pdf" !in EbooksPart16()
      && ".mp3" !in EbooksPart16()
      && ".flac" !in EbooksPart16()
      && ".odt" !in EbooksPart16()
      && ".vhd" !in EbooksPart16()
      && ".dmg" !in EbooksPart16()
      && ".webm" !in EbooksPart16()
      && ".s" !in EbooksPart16()
      && ".m" !in EbooksPart16()
      && ".M" !in EbooksPart16()
      && ".tar.gz" !in EbooksPart16()
  {
  }

  lemma EbooksPart17Case()
    ensures WellCased(EbooksPart17())
  {
  }

  lemma EbooksPart17Probes()
    ensures "" !in EbooksPart17()
      && ".jpg" !in EbooksPart17()
      && ".pdf" !in EbooksPart17()
      && ".mp3" !in EbooksPart17()
      && ".flac" !in EbooksPart17()
      && ".odt" !in EbooksPart17()
      && ".vhd" !in EbooksPart17()
      && ".dmg" !in EbooksPart17()
      && ".webm" !in EbooksPart17()
      && ".s" !in EbooksPart17()
      && ".m" !in EbooksPart17()
      && ".M" !in EbooksPart17()
      && ".tar.gz" !in EbooksPart17()
  {
  }

  lemma EbooksPart18Case()
    ensures WellCased(EbooksPart18())
  {
  }

  lemma EbooksPart18Probes()
    ensures "" !in EbooksPart18()
      && ".jpg" !in EbooksPart18()
      && ".pdf" !in EbooksPart18()
      && ".mp3" !in EbooksPart18()
      && ".flac" !in EbooksPart18()
      && ".odt" !in EbooksPart18()
      && ".vhd" !in EbooksPart18()
      && ".dmg" !in EbooksPart18()
      && ".webm" !in EbooksPart18()
      && ".s" !in EbooksPart18()
      && ".m" !in EbooksPart18()
      && ".M" !in EbooksPart18()
      && ".tar.gz" !in EbooksPart18()
  {
  }

  lemma EbooksPart19Case()
    ensures WellCased(EbooksPart19())
  {
  }

  lemma EbooksPart19Probes()
    ensures "" !in EbooksPart19()
      && ".jpg" !in EbooksPart19()
      && ".pdf" !in EbooksPart19()
      && ".mp3" !in EbooksPart19()
      && ".flac" !in EbooksPart19()
      && ".odt" !in EbooksPart19()
      && ".vhd" !in EbooksPart19()
      && ".dmg" !in EbooksPart19()
      && ".webm" !in EbooksPart19()
      && ".s" !in EbooksPart19()
      && ".m" !in EbooksPart19()
      && ".M" !in EbooksPart19()
      && ".tar.gz" !in EbooksPart19()
  {
  }

  lemma EbooksPart20Case()
    ensures WellCased(EbooksPart20())
  {
  }

  lemma EbooksPart20Probes()
    ensures "" !in EbooksPart20()
      && ".jpg" !in EbooksPart20()
      && ".pdf" !in EbooksPart20()
      && ".mp3" !in EbooksPart20()
      && ".flac" !in EbooksPart20()
      && ".odt" in EbooksPart20()
      && ".vhd" !in EbooksPart20()
      && ".dmg" !in EbooksPart20()
      && ".webm" !in EbooksPart20()
      && ".s" !in EbooksPart20()
      && ".m" !in EbooksPart20()
      && ".M" !in EbooksPart20()
      && ".tar.gz" !in EbooksPart20()
  {
  }

  lemma EbooksPart21Case()
    ensures WellCased(EbooksPart21())
  {
  }

  lemma EbooksPart21Probes()
    ensures "" !in EbooksPart21()
      && ".jpg" !in EbooksPart21()
      && ".pdf" !in EbooksPart21()
      && ".mp3" !in EbooksPart21()
      && ".flac" !in EbooksPart21()
      && ".odt" !in EbooksPart21()
      && ".vhd" !in EbooksPart21()
      && ".dmg" !in EbooksPart21()
      && ".webm" !in EbooksPart21()
      && ".s" !in EbooksPart21()
      && ".m" !in EbooksPart21()
      && ".M" !in EbooksPart21()
      && ".tar.gz" !in EbooksPart21()
  {
  }

  lemma EbooksPart22Case()
    ensures WellCased(EbooksPart22())
  {
  }

  lemma EbooksPart22Probes()
    ensures "" !in EbooksPart22()
      && ".jpg" !in EbooksPart22()
      && ".pdf" !in EbooksPart22()
      && ".mp3" !in EbooksPart22()
      && ".flac" !in EbooksPart22()
      && ".odt" !in EbooksPart22()
      && ".vhd" !in EbooksPart22()
      && ".dmg" !in EbooksPart22()
      && ".webm" !in EbooksPart22()
      && ".s" !in EbooksPart22()
      && ".m" !in EbooksPart22()
      && ".M" !in EbooksPart22()
      && ".tar.gz" !in EbooksPart22()
  {
  }

  lemma EbooksPart23Case()
    ensures WellCased(EbooksPart23())
  {
  }

  lemma EbooksPart23Probes()
    ensures "" !in EbooksPart23()
      && ".jpg" !in EbooksPart23()
      && ".pdf" !in EbooksPart23()
      && ".mp3" !in EbooksPart23()
      && ".flac" !in EbooksPart23()
      && ".odt" !in EbooksPart23()
      && ".vhd" !in EbooksPart23()
      && ".dmg" !in EbooksPart23()
      && ".webm" !in EbooksPart23()
      && ".s" !in EbooksPart23()
      && ".m" !in EbooksPart23()
      && ".M" !in EbooksPart23()
      && ".tar.gz" !in EbooksPart23()
  {
  }

  lemma EbooksPart24Case()
    ensures WellCased(EbooksPart24())
  {
  }

  lemma EbooksPart24Probes()
    ensures "" !in EbooksPart24()
      && ".jpg" !in EbooksPart24()
      && ".pdf" !in EbooksPart24()
      && ".mp3" !in EbooksPart24()
      && ".flac" !in EbooksPart24()
      && ".odt" !in EbooksPart24()
      && ".vhd" !in EbooksPart24()
      && ".dmg" !in EbooksPart24()
      && ".webm" !in EbooksPart24()
      && ".s" !in EbooksPart24()
      && ".m" !in EbooksPart24()
      && ".M" !in EbooksPart24()
      && ".tar.gz" !in EbooksPart24()
  {
  }

  lemma EbooksPart25Case()
    ensures WellCased(EbooksPart25())
  {
  }

  lemma EbooksPart25Probes()
    ensures "" !in EbooksPart25()
      && ".jpg" !in EbooksPart25()
      && ".pdf" !in EbooksPart25()
      && ".mp3" !in EbooksPart25()
      && ".flac" !in EbooksPart25()
      && ".odt" !in EbooksPart25()
      && ".vhd" !in EbooksPart25()
      && ".dmg" !in EbooksPart25()
      && ".webm" !in EbooksPart25()
      && ".s" !in EbooksPart25()
      && ".m" !in EbooksPart25()
      && ".M" !in EbooksPart25()
      && ".tar.gz" !in EbooksPart25()
  {
  }

  lemma EbooksPart26Case()
    ensures WellCased(EbooksPart26())
  {
  }

  lemma EbooksPart26Probes()
    ensures "" !in EbooksPart26()
      && ".jpg" !in EbooksPart26()
      && ".pdf" !in EbooksPart26()
      && ".mp3" !in EbooksPart26()
      && ".flac" !in EbooksPart26()
      && ".odt" !in EbooksPart26()
      && ".vhd" !in EbooksPart26()
      && ".dmg" !in EbooksPart26()
      && ".webm" !in EbooksPart26()
      && ".s" !in EbooksPart26()
      && ".m" !in EbooksPart26()
      && ".M" !in EbooksPart26()
      && ".tar.gz" !in EbooksPart26()
  {
  }

  lemma EbooksPart27Case()
    ensures WellCased(EbooksPart27())
  {
  }

  lemma EbooksPart27Probes()
    ensures "" !in EbooksPart27()
      && ".jpg" !in EbooksPart27()
      && ".pdf" !in EbooksPart27()
      && ".mp3" !in EbooksPart27()
      && ".flac" !in EbooksPart27()
      && ".odt" !in EbooksPart27()
      && ".vhd" !in EbooksPart27()
      && ".dmg" !in EbooksPart27()
      && ".webm" !in EbooksPart27()
      && ".s" !in EbooksPart27()
      && ".m" !in EbooksPart27()
      && ".M" !in EbooksPart27()
      && ".tar.gz" !in EbooksPart27()
  {
  }

  /** `EbooksExtensions` is well cased. */
  lemma EbooksCase()
    ensures WellCased(EbooksExtensions())
  {
    EbooksPart1Case();
    EbooksPart2Case();
    EbooksPart3Case();
    EbooksPart4Case();
    EbooksPart5Case();
    EbooksPart6Case();
    EbooksPart7Case();
    EbooksPart8Case();
    EbooksPart9Case();
    EbooksPart10Case();
    EbooksPart11Case();
    EbooksPart12Case();
    EbooksPart13Case();
    EbooksPart14Case();
    EbooksPart15Case();
    EbooksPart16Case();
    EbooksPart17Case();
    EbooksPart18Case();
    EbooksPart19Case();
    EbooksPart20Case();
    EbooksPart21Case();
    EbooksPart22Case();
    EbooksPart23Case();
    EbooksPart24Case();
    EbooksPart25Case();
    EbooksPart26Case();
    EbooksPart27Case();
  }

  /** Which probe extensions `EbooksExtensions` lists. */
  lemma EbooksProbes()
    ensures ".epub" in EbooksExtensions()
      && "" !in EbooksExtensions()
      && ".jpg" !in EbooksExtensions()
      && ".pdf" !in EbooksExtensions()
      && ".mp3" !in EbooksExtensions()
      && ".flac" !in EbooksExtensions()
      && ".odt" in EbooksExtensions()
      && ".vhd" !in EbooksExtensions()
      && ".dmg" !in EbooksExtensions()
      && ".webm" !in EbooksExtensions()
      && ".s" !in EbooksExtensions()
      && ".m" !in EbooksExtensions()
      && ".M" !in EbooksExtensions()
      && ".tar.gz" !in EbooksExtensions()
  {
    EbooksPart1Probes();
    EbooksPart2Probes();
    EbooksPart3Probes();
    EbooksPart4Probes();
    EbooksPart5Probes();
    EbooksPart6Probes();
    EbooksPart7Probes();
    EbooksPart8Probes();
    EbooksPart9Probes();
    EbooksPart10Probes();
    EbooksPart11Probes();
    EbooksPart12Probes();
    EbooksPart13Probes();
    EbooksPart14Probes();
    EbooksPart15Probes();
    EbooksPart16Probes();
    EbooksPart17Probes();
    EbooksPart18Probes();
    EbooksPart19Probes();
    EbooksPart20Probes();
    EbooksPart21Probes();
    EbooksPart22Probes();
    EbooksPart23Probes();
    EbooksPart24Probes();
    EbooksPart25Probes();
    EbooksPart26Probes();
    EbooksPart27Probes();
  }

  lemma SpreadsheetsPart1Case()
    ensures WellCased(SpreadsheetsPart1())
  {
  }

  lemma SpreadsheetsPart1Probes()
    ensures "" !in SpreadsheetsPart1()
      && ".jpg" !in SpreadsheetsPart1()
      && ".pdf" !in SpreadsheetsPart1()
      && ".mp3" !in SpreadsheetsPart1()
      && ".flac" !in SpreadsheetsPart1()
      && ".odt" !in SpreadsheetsPart1()
      && ".vhd" !in SpreadsheetsPart1()
      && ".dmg" !in SpreadsheetsPart1()
      && ".webm" !in SpreadsheetsPart1()
      && ".s" !in SpreadsheetsPart1()
      && ".m" !in SpreadsheetsPart1()
      && ".M" !in SpreadsheetsPart1()
      && ".tar.gz" !in SpreadsheetsPart1()
  {
  }

  lemma SpreadsheetsPart2Case()
    ensures WellCased(SpreadsheetsPart2())
  {
  }

  lemma SpreadsheetsPart2Probes()
    ensures "" !in SpreadsheetsPart2()
      && ".jpg" !in SpreadsheetsPart2()
      && ".pdf" !in SpreadsheetsPart2()
      && ".mp3" !in SpreadsheetsPart2()
      && ".flac" !in SpreadsheetsPart2()
      && ".odt" !in SpreadsheetsPart2()
      && ".vhd" !in SpreadsheetsPart2()
      && ".dmg" !in SpreadsheetsPart2()
      && ".webm" !in SpreadsheetsPart2()
      && ".s" !in SpreadsheetsPart2()
      && ".m" !in SpreadsheetsPart2()
      && ".M" !in SpreadsheetsPart2()
      && ".tar.gz" !in SpreadsheetsPart2()
  {
  }

  lemma SpreadsheetsPart3Case()
    ensures WellCased(SpreadsheetsPart3())
  {
  }

  lemma SpreadsheetsPart3Probes()
    ensures "" !in SpreadsheetsPart3()
      && ".jpg" !in SpreadsheetsPart3()
      && ".pdf" !in SpreadsheetsPart3()
      && ".mp3" !in SpreadsheetsPart3()
      && ".flac" !in SpreadsheetsPart3()
      && ".odt" !in SpreadsheetsPart3()
      && ".vhd" !in SpreadsheetsPart3()
      && ".dmg" !in SpreadsheetsPart3()
      && ".webm" !in SpreadsheetsPart3()
      && ".s" !in SpreadsheetsPart3()
      && ".m" !in SpreadsheetsPart3()
      && ".M" !in SpreadsheetsPart3()
      && ".tar.gz" !in SpreadsheetsPart3()
  {
  }

  lemma SpreadsheetsPart4Case()
    ensures WellCased(SpreadsheetsPart4())
  {
  }

  lemma SpreadsheetsPart4Probes()
    ensures "" !in SpreadsheetsPart4()
      && ".jpg" !in SpreadsheetsPart4()
      && ".pdf" !in SpreadsheetsPart4()
      && ".mp3" !in SpreadsheetsPart4()
      && ".flac" !in SpreadsheetsPart4()
      && ".odt" !in SpreadsheetsPart4()
      && ".vhd" !in SpreadsheetsPart4()
      && ".dmg" !in SpreadsheetsPart4()
      && ".webm" !in SpreadsheetsPart4()
      && ".s" !in SpreadsheetsPart4()
      && ".m" !in SpreadsheetsPart4()
      && ".M" !in SpreadsheetsPart4()
      && ".tar.gz" !in SpreadsheetsPart4()
  {
  }

  lemma SpreadsheetsPart5Case()
    ensures WellCased(SpreadsheetsPart5())
  {
  }

  lemma SpreadsheetsPart5Probes()
    ensures "" !in SpreadsheetsPart5()
      && ".jpg" !in SpreadsheetsPart5()
      && ".pdf" !in SpreadsheetsPart5()
      && ".mp3" !in SpreadsheetsPart5()
      && ".flac" !in SpreadsheetsPart5()
      && ".odt" !in SpreadsheetsPart5()
      && ".vhd" !in SpreadsheetsPart5()
      && ".dmg" !in SpreadsheetsPart5()
      && ".webm" !in SpreadsheetsPart5()
      && ".s" !in SpreadsheetsPart5()
      && ".m" !in SpreadsheetsPart5()
      && ".M" !in SpreadsheetsPart5()
      && ".tar.gz" !in SpreadsheetsPart5()
  {
  }

  /** `SpreadsheetsExtensions` is well cased. */
  lemma SpreadsheetsCase()
    ensures WellCased(SpreadsheetsExtensions())
  {
    SpreadsheetsPart1Case();
    SpreadsheetsPart2Case();
    SpreadsheetsPart3Case();
    SpreadsheetsPart4Case();
    SpreadsheetsPart5Case();
  }

  /** Which probe extensions `SpreadsheetsExtensions` lists. */
  lemma SpreadsheetsProbes()
    ensures ".xls" in SpreadsheetsExtensions()
      && "" !in SpreadsheetsExtensions()
      && ".jpg" !in SpreadsheetsExtensions()
      && ".pdf" !in SpreadsheetsExtensions()
      && ".mp3" !in SpreadsheetsExtensions()
      && ".flac" !in SpreadsheetsExtensions()
      && ".odt" !in SpreadsheetsExtensions()
      && ".vhd" !in SpreadsheetsExtensions()
      && ".dmg" !in SpreadsheetsExtensions()
      && ".webm" !in SpreadsheetsExtensions()
      && ".s" !in SpreadsheetsExtensions()
      && ".m" !in SpreadsheetsExtensions()
      && ".M" !in SpreadsheetsExtensions()
      && ".tar.gz" !in SpreadsheetsExtensions()
  {
    SpreadsheetsPart1Probes();
    SpreadsheetsPart2Probes();
    SpreadsheetsPart3Probes();
    SpreadsheetsPart4Probes();
    SpreadsheetsPart5Probes();
  }

  lemma PresentationsPart1Case()
    ensures WellCased(PresentationsPart1())
  {
  }

  lemma PresentationsPart1Probes()
    ensures "" !in PresentationsPart1()
      && ".jpg" !in PresentationsPart1()
      && ".pdf" !in PresentationsPart1()
      && ".mp3" !in PresentationsPart1()
      && ".flac" !in PresentationsPart1()
      && ".odt" !in PresentationsPart1()
      && ".vhd" !in PresentationsPart1()
      && ".dmg" !in PresentationsPart1()
      && ".webm" !in PresentationsPart1()
      && ".s" !in PresentationsPart1()
      && ".m" !in PresentationsPart1()
      && ".M" !in PresentationsPart1()
      && ".tar.gz" !in PresentationsPart1()
  {
  }

  lemma PresentationsPart2Case()
    ensures WellCased(PresentationsPart2())
  {
  }

  lemma PresentationsPart2Probes()
    ensures "" !in PresentationsPart2()
      && ".jpg" !in PresentationsPart2()
      && ".pdf" !in PresentationsPart2()
      && ".mp3" !in PresentationsPart2()
      && ".flac" !in PresentationsPart2()
      && ".odt" !in PresentationsPart2()
      && ".vhd" !in PresentationsPart2()
      && ".dmg" !in PresentationsPart2()
      && ".webm" !in PresentationsPart2()
      && ".s" !in PresentationsPart2()
      && ".m" !in PresentationsPart2()
      && ".M" !in PresentationsPart2()
      && ".tar.gz" !in PresentationsPart2()
  {
  }

  lemma PresentationsPart3Case()
    ensures WellCased(PresentationsPart3())
  {
  }

  lemma PresentationsPart3Probes()
    ensures "" !in PresentationsPart3()
      && ".jpg" !in PresentationsPart3()
      && ".pdf" !in PresentationsPart3()
      && ".mp3" !in PresentationsPart3()
      && ".flac" !in PresentationsPart3()
      && ".odt" !in PresentationsPart3()
      && ".vhd" !in PresentationsPart3()
      && ".dmg" !in PresentationsPart3()
      && ".webm" !in PresentationsPart3()
      && ".s" !in PresentationsPart3()
      && ".m" !in PresentationsPart3()
      && ".M" !in PresentationsPart3()
      && ".tar.gz" !in PresentationsPart3()
  {
  }

  lemma PresentationsPart4Case()
    ensures WellCased(PresentationsPart4())
  {
  }

  lemma PresentationsPart4Probes()
    ensures "" !in PresentationsPart4()
      && ".jpg" !in PresentationsPart4()
      && ".pdf" !in PresentationsPart4()
      && ".mp3" !in PresentationsPart4()
      && ".flac" !in PresentationsPart4()
      && ".odt" !in PresentationsPart4()
      && ".vhd" !in PresentationsPart4()
      && ".dmg" !in PresentationsPart4()
      && ".webm" !in PresentationsPart4()
      && ".s" !in PresentationsPart4()
      && ".m" !in PresentationsPart4()
      && ".M" !in PresentationsPart4()
      && ".tar.gz" !in PresentationsPart4()
  {
  }

  lemma PresentationsPart5Case()
    ensures WellCased(PresentationsPart5())
  {
  }

  lemma PresentationsPart5Probes()
    ensures "" !in PresentationsPart5()
      && ".jpg" !in PresentationsPart5()
      && ".pdf" !in PresentationsPart5()
      && ".mp3" !in PresentationsPart5()
      && ".flac" !in PresentationsPart5()
      && ".odt" !in PresentationsPart5()
      && ".vhd" !in PresentationsPart5()
      && ".dmg" !in PresentationsPart5()
      && ".webm" !in PresentationsPart5()
      && ".s" !in PresentationsPart5()
      && ".m" !in PresentationsPart5()
      && ".M" !in PresentationsPart5()
      && ".tar.gz" !in PresentationsPart5()
  {
  }

  lemma PresentationsPart6Case()
    ensures WellCased(PresentationsPart6())
  {
  }

  lemma PresentationsPart6Probes()
    ensures "" !in PresentationsPart6()
      && ".jpg" !in PresentationsPart6()
      && ".pdf" !in PresentationsPart6()
      && ".mp3" !in PresentationsPart6()
      && ".flac" !in PresentationsPart6()
      && ".odt" !in PresentationsPart6()
      && ".vhd" !in PresentationsPart6()
      && ".dmg" !in PresentationsPart6()
      && ".webm" !in PresentationsPart6()
      && ".s" !in PresentationsPart6()
      && ".m" !in PresentationsPart6()
      && ".M" !in PresentationsPart6()
      && ".tar.gz" !in PresentationsPart6()
  {
  }

  lemma PresentationsPart7Case()
    ensures WellCased(PresentationsPart7())
  {
  }

  lemma PresentationsPart7Probes()
    ensures "" !in PresentationsPart7()
      && ".jpg" !in PresentationsPart7()
      && ".pdf" !in PresentationsPart7()
      && ".mp3" !in PresentationsPart7()
      && ".flac" !in PresentationsPart7()
      && ".odt" !in PresentationsPart7()
      && ".vhd" !in PresentationsPart7()
      && ".dmg" !in PresentationsPart7()
      && ".webm" !in PresentationsPart7()
      && ".s" !in PresentationsPart7()
      && ".m" !in PresentationsPart7()
      && ".M" !in PresentationsPart7()
      && ".tar.gz" !in PresentationsPart7()
  {
  }

  /** `PresentationsExtensions` is well cased. */
  lemma PresentationsCase()
    ensures WellCased(PresentationsExtensions())
  {
    PresentationsPart1Case();
    PresentationsPart2Case();
    PresentationsPart3Case();
    PresentationsPart4Case();
    PresentationsPart5Case();
    PresentationsPart6Case();
    PresentationsPart7Case();
  }

  /** Which probe extensions `PresentationsExtensions` lists. */
  lemma PresentationsProbes()
    ensures ".ppt" in PresentationsExtensions()
      && "" !in PresentationsExtensions()
      && ".jpg" !in PresentationsExtensions()
      && ".pdf" !in PresentationsExtensions()
      && ".mp3" !in PresentationsExtensions()
      && ".flac" !in PresentationsExtensions()
      && ".odt" !in PresentationsExtensions()
      && ".vhd" !in PresentationsExtensions()
      && ".dmg" !in PresentationsExtensions()
      && ".webm" !in PresentationsExtensions()
      && ".s" !in PresentationsExtensions()
      && ".m" !in PresentationsExtensions()
      && ".M" !in PresentationsExtensions()
      && ".tar.gz" !in PresentationsExtensions()
  {
    PresentationsPart1Probes();
    PresentationsPart2Probes();
    PresentationsPart3Probes();
    PresentationsPart4Probes();
    PresentationsPart5Probes();
    PresentationsPart6Probes();
    PresentationsPart7Probes();
  }

  lemma CodePart1Case()
    ensures WellCased(CodePart1())
  {
  }

  lemma CodePart1Probes()
    ensures "" !in CodePart1()
      && ".jpg" !in CodePart1()
      && ".pdf" !in CodePart1()
      && ".mp3" !in CodePart1()
      && ".flac" !in CodePart1()
      && ".odt" !in CodePart1()
      && ".vhd" !in CodePart1()
      && ".dmg" !in CodePart1()
      && ".webm" !in CodePart1()
      && ".s" !in CodePart1()
      && ".m" !in CodePart1()
      && ".M" !in CodePart1()
      && ".tar.gz" !in CodePart1()
  {
  }

  lemma CodePart2Case()
    ensures WellCased(CodePart2())
  {
  }

  lemma CodePart2Probes()
    ensures "" !in CodePart2()
      && ".jpg" !in CodePart2()
      && ".pdf" !in CodePart2()
      && ".mp3" !in CodePart2()
      && ".flac" !in CodePart2()
      && ".odt" !in CodePart2()
      && ".vhd" !in CodePart2()
      && ".dmg" !in CodePart2()
      && ".webm" !in CodePart2()
      && ".s" !in CodePart2()
      && ".m" !in CodePart2()
      && ".M" !in CodePart2()
      && ".tar.gz" !in CodePart2()
  {
  }

  lemma CodePart3Case()
    ensures WellCased(CodePart3())
  {
  }

  lemma CodePart3Probes()
    ensures "" !in CodePart3()
      && ".jpg" !in CodePart3()
      && ".pdf" !in CodePart3()
      && ".mp3" !in CodePart3()
      && ".flac" !in CodePart3()
      && ".odt" !in CodePart3()
      && ".vhd" !in CodePart3()
      && ".dmg" !in CodePart3()
      && ".webm" !in CodePart3()
      && ".s" !in CodePart3()
      && ".m" !in CodePart3()
      && ".M" !in CodePart3()
      && ".tar.gz" !in CodePart3()
  {
  }

  lemma CodePart4Case()
    ensures WellCased(CodePart4())
  {
  }

  lemma CodePart4Probes()
    ensures "" !in CodePart4()
      && ".jpg" !in CodePart4()
      && ".pdf" !in CodePart4()
      && ".mp3" !in CodePart4()
      && ".flac" !in CodePart4()
      && ".odt" !in CodePart4()
      && ".vhd" !in CodePart4()
      && ".dmg" !in CodePart4()
      && ".webm" !in CodePart4()
      && ".s" !in CodePart4()
      && ".m" !in CodePart4()
      && ".M" !in CodePart4()
      && ".tar.gz" !in CodePart4()
  {
  }

  lemma CodePart5Case()
    ensures WellCased(CodePart5())
  {
  }

  lemma CodePart5Probes()
    ensures "" !in CodePart5()
      && ".jpg" !in CodePart5()
      && ".pdf" !in CodePart5()
      && ".mp3" !in CodePart5()
      && ".flac" !in CodePart5()
      && ".odt" !in CodePart5()
      && ".vhd" !in CodePart5()
      && ".dmg" !in CodePart5()
      && ".webm" !in CodePart5()
      && ".s" !in CodePart5()
      && ".m" !in CodePart5()
      && ".M" !in CodePart5()
      && ".tar.gz" !in CodePart5()
  {
  }

  lemma CodePart6Case()
    ensures WellCased(CodePart6())
  {
  }

  lemma CodePart6Probes()
    ensures "" !in CodePart6()
      && ".jpg" !in CodePart6()
      && ".pdf" !in CodePart6()
      && ".mp3" !in CodePart6()
      && ".flac" !in CodePart6()
      && ".odt" !in CodePart6()
      && ".vhd" !in CodePart6()
      && ".dmg" !in CodePart6()
      && ".webm" !in CodePart6()
      && ".s" !in CodePart6()
      && ".m" !in CodePart6()
      && ".M" !in CodePart6()
      && ".tar.gz" !in CodePart6()
  {
  }

  lemma CodePart7Case()
    ensures WellCased(CodePart7())
  {
  }

  lemma CodePart7Probes()
    ensures "" !in CodePart7()
      && ".jpg" !in CodePart7()
      && ".pdf" !in CodePart7()
      && ".mp3" !in CodePart7()
      && ".flac" !in CodePart7()
      && ".odt" !in CodePart7()
      && ".vhd" !in CodePart7()
      && ".dmg" !in CodePart7()
      && ".webm" !in CodePart7()
      && ".s" !in CodePart7()
      && ".m" !in CodePart7()
      && ".M" !in CodePart7()
      && ".tar.gz" !in CodePart7()
  {
  }

  lemma CodePart8Case()
    ensures WellCased(CodePart8())
  {
  }

  lemma CodePart8Probes()
    ensures "" !in CodePart8()
      && ".jpg" !in CodePart8()
      && ".pdf" !in CodePart8()
      && ".mp3" !in CodePart8()
      && ".flac" !in CodePart8()
      && ".odt" !in CodePart8()
      && ".vhd" !in CodePart8()
      && ".dmg" !in CodePart8()
      && ".webm" !in CodePart8()
      && ".s" !in CodePart8()
      && ".m" !in CodePart8()
      && ".M" !in CodePart8()
      && ".tar.gz" !in CodePart8()
      && ".vbproj.user" in CodePart8()
  {
  }

  lemma CodePart9Case()
    ensures WellCased(CodePart9())
  {
  }

  lemma CodePart9Probes()
    ensures "" !in CodePart9()
      && ".jpg" !in CodePart9()
      && ".pdf" !in CodePart9()
      && ".mp3" !in CodePart9()
      && ".flac" !in CodePart9()
      && ".odt" !in CodePart9()
      && ".vhd" !in CodePart9()
      && ".dmg" !in CodePart9()
      && ".webm" !in CodePart9()
      && ".s" !in CodePart9()
      && ".m" !in CodePart9()
      && ".M" !in CodePart9()
      && ".tar.gz" !in CodePart9()
  {
  }

  lemma CodePart10Case()
    ensures WellCased(CodePart10())
  {
  }

  lemma CodePart10Probes()
    ensures "" !in CodePart10()
      && ".jpg" !in CodePart10()
      && ".pdf" !in CodePart10()
      && ".mp3" !in CodePart10()
      && ".flac" !in CodePart10()
      && ".odt" !in CodePart10()
      && ".vhd" !in CodePart10()
      && ".dmg" !in CodePart10()
      && ".webm" !in CodePart10()
      && ".s" !in CodePart10()
      && ".m" !in CodePart10()
      && ".M" !in CodePart10()
      && ".tar.gz" !in CodePart10()
  {
  }

  lemma CodePart11Case()
    ensures WellCased(CodePart11())
  {
  }

  lemma CodePart11Probes()
    ensures "" !in CodePart11()
      && ".jpg" !in CodePart11()
      && ".pdf" !in CodePart11()
      && ".mp3" !in CodePart11()
      && ".flac" !in CodePart11()
      && ".odt" !in CodePart11()
      && ".vhd" !in CodePart11()
      && ".dmg" !in CodePart11()
      && ".webm" !in CodePart11()
      && ".s" !in CodePart11()
      && ".m" !in CodePart11()
      && ".M" !in CodePart11()
      && ".tar.gz" !in CodePart11()
  {
  }

  lemma CodePart12Case()
    ensures WellCased(CodePart12())
  {
  }

  lemma CodePart12Probes()
    ensures "" !in CodePart12()
      && ".jpg" !in CodePart12()
      && ".pdf" !in CodePart12()
      && ".mp3" !in CodePart12()
      && ".flac" !in CodePart12()
      && ".odt" !in CodePart12()
      && ".vhd" !in CodePart12()
      && ".dmg" !in CodePart12()
      && ".webm" !in CodePart12()
      && ".s" !in CodePart12()
      && ".m" !in CodePart12()
      && ".M" !in CodePart12()
      && ".tar.gz" !in CodePart12()
  {
  }

  lemma CodePart13Case()
    ensures WellCased(CodePart13())
  {
  }

  lemma CodePart13Probes()
    ensures "" !in CodePart13()
      && ".jpg" !in CodePart13()
      && ".pdf" !in CodePart13()
      && ".mp3" !in CodePart13()
      && ".flac" !in CodePart13()
      && ".odt" !in CodePart13()
      && ".vhd" !in CodePart13()
      && ".dmg" !in CodePart13()
      && ".webm" !in CodePart13()
      && ".s" !in CodePart13()
      && ".m" !in CodePart13()
      && ".M" !in CodePart13()
      && ".tar.gz" !in CodePart13()
  {
  }

  lemma CodePart14Case()
    ensures WellCased(CodePart14())
  {
  }

  lemma CodePart14Probes()
    ensures "" !in CodePart14()
      && ".jpg" !in CodePart14()
      && ".pdf" !in CodePart14()
      && ".mp3" !in CodePart14()
      && ".flac" !in CodePart14()
      && ".odt" !in CodePart14()
      && ".vhd" !in CodePart14()
      && ".dmg" !in CodePart14()
      && ".webm" !in CodePart14()
      && ".s" !in CodePart14()
      && ".m" !in CodePart14()
      && ".M" !in CodePart14()
      && ".tar.gz" !in CodePart14()
  {
  }

  lemma CodePart15Case()
    ensures WellCased(CodePart15())
  {
  }

  lemma CodePart15Probes()
    ensures "" !in CodePart15()
      && ".jpg" !in CodePart15()
      && ".pdf" !in CodePart15()
      && ".mp3" !in CodePart15()
      && ".flac" !in CodePart15()
      && ".odt" !in CodePart15()
      && ".vhd" !in CodePart15()
      && ".dmg" !in CodePart15()
      && ".webm" !in CodePart15()
      && ".s" !in CodePart15()
      && ".m" !in CodePart15()
      && ".M" !in CodePart15()
      && ".tar.gz" !in CodePart15()
  {
  }

  lemma CodePart16Case()
    ensures WellCased(CodePart16())
  {
  }

  lemma CodePart16Probes()
    ensures "" !in CodePart16()
      && ".jpg" !in CodePart16()
      && ".pdf" !in CodePart16()
      && ".mp3" !in CodePart16()
      && ".flac" !in CodePart16()
      && ".odt" !in CodePart16()
      && ".vhd" !in CodePart16()
      && ".dmg" !in CodePart16()
      && ".webm" !in CodePart16()
      && ".s" !in CodePart16()
      && ".m" !in CodePart16()
      && ".M" !in CodePart16()
      && ".tar.gz" !in CodePart16()
  {
  }

  lemma CodePart17Case()
    ensures WellCased(CodePart17())
  {
  }

  lemma CodePart17Probes()
    ensures "" !in CodePart17()
      && ".jpg" !in CodePart17()
      && ".pdf" !in CodePart17()
      && ".mp3" !in CodePart17()
      && ".flac" !in CodePart17()
      && ".odt" !in CodePart17()
      && ".vhd" !in CodePart17()
      && ".dmg" !in CodePart17()
      && ".webm" !in CodePart17()
      && ".s" !in CodePart17()
      && ".m" !in CodePart17()
      && ".M" !in CodePart17()
      && ".tar.gz" !in CodePart17()
  {
  }

  lemma CodePart18Case()
    ensures WellCased(CodePart18())
  {
  }

  lemma CodePart18Probes()
    ensures "" !in CodePart18()
      && ".jpg" !in CodePart18()
      && ".pdf" !in CodePart18()
      && ".mp3" !in CodePart18()
      && ".flac" !in CodePart18()
      && ".odt" !in CodePart18()
      && ".vhd" !in CodePart18()
      && ".dmg" !in CodePart18()
      && ".webm" !in CodePart18()
      && ".s" !in CodePart18()
      && ".m" !in CodePart18()
      && ".M" !in CodePart18()
      && ".tar.gz" !in CodePart18()
  {
  }

  lemma CodePart19Case()
    ensures WellCased(CodePart19())
  {
  }

  lemma CodePart19Probes()
    ensures "" !in CodePart19()
      && ".jpg" !in CodePart19()
      && ".pdf" !in CodePart19()
      && ".mp3" !in CodePart19()
      && ".flac" !in CodePart19()
      && ".odt" !in CodePart19()
      && ".vhd" !in CodePart19()
      && ".dmg" !in CodePart19()
      && ".webm" !in CodePart19()
      && ".s" !in CodePart19()
      && ".m" !in CodePart19()
      && ".M" !in CodePart19()
      && ".tar.gz" !in CodePart19()
  {
  }

  lemma CodePart20Case()
    ensures WellCased(CodePart20())
  {
  }

  lemma CodePart20Probes()
    ensures "" !in CodePart20()
      && ".jpg" !in CodePart20()
      && ".pdf" !in CodePart20()
      && ".mp3" !in CodePart20()
      && ".flac" !in CodePart20()
      && ".odt" !in CodePart20()
      && ".vhd" !in CodePart20()
      && ".dmg" !in CodePart20()
      && ".webm" !in CodePart20()
      && ".s" in CodePart20()
      && ".m" !in CodePart20()
      && ".M" !in CodePart20()
      && ".tar.gz" !in CodePart20()
      && ".S" in CodePart20()
  {
  }

  lemma CodePart21Case()
    ensures WellCased(CodePart21())
  {
  }

  lemma CodePart21Probes()
    ensures "" !in CodePart21()
      && ".jpg" !in CodePart21()
      && ".pdf" !in CodePart21()
      && ".mp3" !in CodePart21()
      && ".flac" !in CodePart21()
      && ".odt" !in CodePart21()
      && ".vhd" !in CodePart21()
      && ".dmg" !in CodePart21()
      && ".webm" !in CodePart21()
      && ".s" !in CodePart21()
      && ".m" in CodePart21()
      && ".M" in CodePart21()
      && ".tar.gz" !in CodePart21()
  {
  }

  lemma CodePart22Case()
    ensures WellCased(CodePart22())
  {
  }

  lemma CodePart22Probes()
    ensures "" !in CodePart22()
      && ".jpg" !in CodePart22()
      && ".pdf" !in CodePart22()
      && ".mp3" !in CodePart22()
      && ".flac" !in CodePart22()
      && ".odt" !in CodePart22()
      && ".vhd" !in CodePart22()
      && ".dmg" !in CodePart22()
      && ".webm" !in CodePart22()
      && ".s" !in CodePart22()
      && ".m" !in CodePart22()
      && ".M" !in CodePart22()
      && ".tar.gz" !in CodePart22()
  {
  }

  lemma CodePart23Case()
    ensures WellCased(CodePart23())
  {
  }

  lemma CodePart23Probes()
    ensures "" !in CodePart23()
      && ".jpg" !in CodePart23()
      && ".pdf" !in CodePart23()
      && ".mp3" !in CodePart23()
      && ".flac" !in CodePart23()
      && ".odt" !in CodePart23()
      && ".vhd" !in CodePart23()
      && ".dmg" !in CodePart23()
      && ".webm" !in CodePart23()
      && ".s" !in CodePart23()
      && ".m" !in CodePart23()
      && ".M" !in CodePart23()
      && ".tar.gz" !in CodePart23()
  {
  }

  lemma CodePart24Case()
    ensures WellCased(CodePart24())
  {
  }

  lemma CodePart24Probes()
    ensures "" !in CodePart24()
      && ".jpg" !in CodePart24()
      && ".pdf" !in CodePart24()
      && ".mp3" !in CodePart24()
      && ".flac" !in CodePart24()
      && ".odt" !in CodePart24()
      && ".vhd" !in CodePart24()
      && ".dmg" !in CodePart24()
      && ".webm" !in CodePart24()
      && ".s" !in CodePart24()
      && ".m" !in CodePart24()
      && ".M" !in CodePart24()
      && ".tar.gz" !in CodePart24()
  {
  }

  lemma CodePart25Case()
    ensures WellCased(CodePart25())
  {
  }

  lemma CodePart25Probes()
    ensures "" !in CodePart25()
      && ".jpg" !in CodePart25()
      && ".pdf" !in CodePart25()
      && ".mp3" !in CodePart25()
      && ".flac" !in CodePart25()
      && ".odt" !in CodePart25()
      && ".vhd" in CodePart25()
      && ".dmg" !in CodePart25()
      && ".webm" !in CodePart25()
      && ".s" !in CodePart25()
      && ".m" !in CodePart25()
      && ".M" !in CodePart25()
      && ".tar.gz" !in CodePart25()
  {
  }

  lemma CodePart26Case()
    ensures WellCased(CodePart26())
  {
  }

  lemma CodePart26Probes()
    ensures "" !in CodePart26()
      && ".jpg" !in CodePart26()
      && ".pdf" !in CodePart26()
      && ".mp3" !in CodePart26()
      && ".flac" !in CodePart26()
      && ".odt" !in CodePart26()
      && ".vhd" !in CodePart26()
      && ".dmg" !in CodePart26()
      && ".webm" !in CodePart26()
      && ".s" !in CodePart26()
      && ".m" !in CodePart26()
      && ".M" !in CodePart26()
      && ".tar.gz" !in CodePart26()
  {
  }

  lemma CodePart27Case()
    ensures WellCased(CodePart27())
  {
  }

  lemma CodePart27Probes()
    ensures "" !in CodePart27()
      && ".jpg" !in CodePart27()
      && ".pdf" !in CodePart27()
      && ".mp3" !in CodePart27()
      && ".flac" !in CodePart27()
      && ".odt" !in CodePart27()
      && ".vhd" !in CodePart27()
      && ".dmg" !in CodePart27()
      && ".webm" !in CodePart27()
      && ".s" !in CodePart27()
      && ".m" !in CodePart27()
      && ".M" !in CodePart27()
      && ".tar.gz" !in CodePart27()
  {
  }

  lemma CodePart28Case()
    ensures WellCased(CodePart28())
  {
  }

  lemma CodePart28Probes()
    ensures "" !in CodePart28()
      && ".jpg" !in CodePart28()
      && ".pdf" !in CodePart28()
      && ".mp3" !in CodePart28()
      && ".flac" !in CodePart28()
      && ".odt" !in CodePart28()
      && ".vhd" !in CodePart28()
      && ".dmg" !in CodePart28()
      && ".webm" !in CodePart28()
      && ".s" !in CodePart28()
      && ".m" !in CodePart28()
      && ".M" !in CodePart28()
      && ".tar.gz" !in CodePart28()
  {
  }

  lemma CodePart29Case()
    ensures WellCased(CodePart29())
  {
  }

  lemma CodePart29Probes()
    ensures "" !in CodePart29()
      && ".jpg" !in CodePart29()
      && ".pdf" !in CodePart29()
      && ".mp3" !in CodePart29()
      && ".flac" !in CodePart29()
      && ".odt" !in CodePart29()
      && ".vhd" !in CodePart29()
      && ".dmg" !in CodePart29()
      && ".webm" !in CodePart29()
      && ".s" !in CodePart29()
      && ".m" !in CodePart29()
      && ".M" !in CodePart29()
      && ".tar.gz" !in CodePart29()
  {
  }

  lemma CodePart30Case()
    ensures WellCased(CodePart30())
  {
  }

  lemma CodePart30Probes()
    ensures "" !in CodePart30()
      && ".jpg" !in CodePart30()
      && ".pdf" !in CodePart30()
      && ".mp3" !in CodePart30()
      && ".flac" !in CodePart30()
      && ".odt" !in CodePart30()
      && ".vhd" !in CodePart30()
      && ".dmg" !in CodePart30()
      && ".webm" !in CodePart30()
      && ".s" !in CodePart30()
      && ".m" !in CodePart30()
      && ".M" !in CodePart30()
      && ".tar.gz" !in CodePart30()
  {
  }

  lemma CodePart31Case()
    ensures WellCased(CodePart31())
  {
  }

  lemma CodePart31Probes()
    ensures "" !in CodePart31()
      && ".jpg" !in CodePart31()
      && ".pdf" !in CodePart31()
      && ".mp3" !in CodePart31()
      && ".flac" !in CodePart31()
      && ".odt" !in CodePart31()
      && ".vhd" !in CodePart31()
      && ".dmg" !in CodePart31()
      && ".webm" !in CodePart31()
      && ".s" !in CodePart31()
      && ".m" !in CodePart31()
      && ".M" !in CodePart31()
      && ".tar.gz" !in CodePart31()
  {
  }

  lemma CodePart32Case()
    ensures WellCased(CodePart32())
  {
  }

  lemma CodePart32Probes()
    ensures "" !in CodePart32()
      && ".jpg" !in CodePart32()
      && ".pdf" !in CodePart32()
      && ".mp3" !in CodePart32()
      && ".flac" !in CodePart32()
      && ".odt" !in CodePart32()
      && ".vhd" !in CodePart32()
      && ".dmg" !in CodePart32()
      && ".webm" !in CodePart32()
      && ".s" !in CodePart32()
      && ".m" !in CodePart32()
      && ".M" !in CodePart32()
      && ".tar.gz" !in CodePart32()
  {
  }

  lemma CodePart33Case()
    ensures WellCased(CodePart33())
  {
  }

  lemma CodePart33Probes()
    ensures "" !in CodePart33()
      && ".jpg" !in CodePart33()
      && ".pdf" !in CodePart33()
      && ".mp3" !in CodePart33()
      && ".flac" !in CodePart33()
      && ".odt" !in CodePart33()
      && ".vhd" !in CodePart33()
      && ".dmg" !in CodePart33()
      && ".webm" !in CodePart33()
      && ".s" !in CodePart33()
      && ".m" !in CodePart33()
      && ".M" !in CodePart33()
      && ".tar.gz" !in CodePart33()
  {
  }

  lemma CodePart34Case()
    ensures WellCased(CodePart34())
  {
  }

  lemma CodePart34Probes()
    ensures "" !in CodePart34()
      && ".jpg" !in CodePart34()
      && ".pdf" !in CodePart34()
      && ".mp3" !in CodePart34()
      && ".flac" !in CodePart34()
      && ".odt" !in CodePart34()
      && ".vhd" !in CodePart34()
      && ".dmg" !in CodePart34()
      && ".webm" !in CodePart34()
      && ".s" !in CodePart34()
      && ".m" !in CodePart34()
      && ".M" !in CodePart34()
      && ".tar.gz" !in CodePart34()
  {
  }

  lemma CodePart35Case()
    ensures WellCased(CodePart35())
  {
  }

  lemma CodePart35Probes()
    ensures "" !in CodePart35()
      && ".jpg" !in CodePart35()
      && ".pdf" !in CodePart35()
      && ".mp3" !in CodePart35()
      && ".flac" !in CodePart35()
      && ".odt" !in CodePart35()
      && ".vhd" !in CodePart35()
      && ".dmg" !in CodePart35()
      && ".webm" !in CodePart35()
      && ".s" !in CodePart35()
      && ".m" !in CodePart35()
      && ".M" !in CodePart35()
      && ".tar.gz" !in CodePart35()
  {
  }

  lemma CodePart36Case()
    ensures WellCased(CodePart36())
  {
  }

  lemma CodePart36Probes()
    ensures "" !in CodePart36()
      && ".jpg" !in CodePart36()
      && ".pdf" !in CodePart36()
      && ".mp3" !in CodePart36()
      && ".flac" !in CodePart36()
      && ".odt" !in CodePart36()
      && ".vhd" !in CodePart36()
      && ".dmg" !in CodePart36()
      && ".webm" !in CodePart36()
      && ".s" !in CodePart36()
      && ".m" !in CodePart36()
      && ".M" !in CodePart36()
      && ".tar.gz" !in CodePart36()
      && ".BUILD" in CodePart36()
      && ".WORKSPACE" in CodePart36()
  {
  }

  /** `CodeExtensions` is well cased. */
  lemma CodeCase()
    ensures WellCased(CodeExtensions())
  {
    CodePart1Case();
    CodePart2Case();
    CodePart3Case();
    CodePart4Case();
    CodePart5Case();
    CodePart6Case();
    CodePart7Case();
    CodePart8Case();
    CodePart9Case();
    CodePart10Case();
    CodePart11Case();
    CodePart12Case();
    CodePart13Case();
    CodePart14Case();
    CodePart15Case();
    CodePart16Case();
    CodePart17Case();
    CodePart18Case();
    CodePart19Case();
    CodePart20Case();
    CodePart21Case();
    CodePart22Case();
    CodePart23Case();
    CodePart24Case();
    CodePart25Case();
    CodePart26Case();
    CodePart27Case();
    CodePart28Case();
    CodePart29Case();
    CodePart30Case();
    CodePart31Case();
    CodePart32Case();
    CodePart33Case();
    CodePart34Case();
    CodePart35Case();
    CodePart36Case();
  }

  /** Which probe extensions `CodeExtensions` lists. */
  lemma CodeProbes()
    ensures ".c" in CodeExtensions()
      && "" !in CodeExtensions()
      && ".jpg" !in CodeExtensions()
      && ".pdf" !in CodeExtensions()
      && ".mp3" !in CodeExtensions()
      && ".flac" !in CodeExtensions()
      && ".odt" !in CodeExtensions()
      && ".vhd" in CodeExtensions()
      && ".dmg" !in CodeExtensions()
      && ".webm" !in CodeExtensions()
      && ".s" in CodeExtensions()
      && ".m" in CodeExtensions()
      && ".M" in CodeExtensions()
      && ".tar.gz" !in CodeExtensions()
      && ".S" in CodeExtensions()
      && ".BUILD" in CodeExtensions()
      && ".WORKSPACE" in CodeExtensions()
      && ".vbproj.user" in CodeExtensions()
  {
    CodePart1Probes();
    CodePart2Probes();
    CodePart3Probes();
    CodePart4Probes();
    CodePart5Probes();
    CodePart6Probes();
    CodePart7Probes();
    CodePart8Probes();
    CodePart9Probes();
    CodePart10Probes();
    CodePart11Probes();
    CodePart12Probes();
    CodePart13Probes();
    CodePart14Probes();
    CodePart15Probes();
    CodePart16Probes();
    CodePart17Probes();
    CodePart18Probes();
    CodePart19Probes();
    CodePart20Probes();
    CodePart21Probes();
    CodePart22Probes();
    CodePart23Probes();
    CodePart24Probes();
    CodePart25Probes();
    CodePart26Probes();
    CodePart27Probes();
    CodePart28Probes();
    CodePart29Probes();
    CodePart30Probes();
    CodePart31Probes();
    CodePart32Probes();
    CodePart33Probes();
    CodePart34Probes();
    CodePart35Probes();
    CodePart36Probes();
  }
}
