/** The editor tool that turns the addressable audio groups into generated
    constant classes: it keeps the audio entries of one named group, collects
    their addresses in order, and renders a class with one string constant per
    address into the category's script folder. */
module PathGeneration {
  import opened Engine

  const SEPath := "Assets/AudioManager/Scripts/SE/"
  const BGMPath := "Assets/AudioManager/Scripts/BGM/"
  const SEGroupName := "AudioManagerSE"
  const BGMGroupName := "AudioManagerBGM"
  const SEClassName := "SEPath"
  const BGMClassName := "BGMPath"

  /** One asset of an addressable group: the address code refers to it by, and
      the project path of the asset file. */
  datatype AddressableEntry = AddressableEntry(address: string, assetPath: string)

  datatype AddressableGroup = AddressableGroup(name: string, entries: seq<AddressableEntry>)

  /** One file written by the tool: where, and the full text. */
  datatype FileWrite = FileWrite(path: string, text: string)

  // ---------------------------------------------------------------------------
  // File name extensions

  /** A directory separator as on Windows hosts: '/' or '\\'. On Unix hosts
      '\\' is an ordinary character; that changes no audio-file verdict, since
      an accepted path ends in '.' and three characters free of both. */
  predicate IsSeparator(c: char) { c == '/' || c == '\\' }

  /** Position j comes before end and no separator lies strictly between them. */
  ghost predicate InComponent(path: string, j: int, end: int)
  {
    0 <= j < end <= |path| && forall k :: j < k < end ==> !IsSeparator(path[k])
  }

  /** Position j of path lies in the last path component: no separator follows it. */
  ghost predicate InFileName(path: string, j: int)
  {
    InComponent(path, j, |path|)
  }

  /** The position of the last '.' before end that no separator follows before end. */
  function LastDotBefore(path: string, end: nat): (r: Option<nat>)
    requires end <= |path|
    ensures r.Some? ==> InComponent(path, r.value, end) && path[r.value] == '.'
    ensures r.Some? ==> forall k :: r.value < k < end ==> path[k] != '.'
    ensures r.None? ==> forall j :: InComponent(path, j, end) ==> path[j] != '.'
    decreases end
  {
    if end == 0 then None
    else if path[end - 1] == '.' then Some(end - 1)
    else if IsSeparator(path[end - 1]) then None
    else LastDotBefore(path, end - 1)
  }

  /** The position of the last '.' of the last path component, if there is one. */
  function LastDotInFileName(path: string): Option<nat>
  {
    LastDotBefore(path, |path|)
  }

  /** The extension of a path as the platform's path library gives it: from the last
      '.' of the last component to the end, or empty when that component has no
      '.' or ends with it. */
  function Extension(path: string): (ext: string)
    ensures ext != [] ==> 2 <= |ext| <= |path| && ext == path[|path| - |ext|..] && ext[0] == '.'
    ensures ext != [] ==> forall k :: 1 <= k < |ext| ==> ext[k] != '.' && !IsSeparator(ext[k])
    ensures ext == [] ==>
              (|path| > 0 && path[|path| - 1] == '.') || forall j :: InFileName(path, j) ==> path[j] != '.'
  {
    match LastDotInFileName(path)
    case None => []
    case Some(i) => if i == |path| - 1 then [] else path[i..]
  }

  /** A '.' followed, up to end, only by characters that are neither dots nor
      separators is the last dot before end. */
  lemma {:induction false} LastDotAt(path: string, d: nat, end: nat)
    requires d < end <= |path| && path[d] == '.'
    requires forall k :: d < k < end ==> path[k] != '.' && !IsSeparator(path[k])
    ensures LastDotBefore(path, end) == Some(d)
    decreases end
  {
    if end - 1 != d {
      LastDotAt(path, d, end - 1);
    }
  }

  /** A path whose last component ends in '.' followed by a non-empty name free of
      dots and separators has that dot and name as its extension. */
  lemma ExtensionOfName(stem: string, name: string)
    requires |name| >= 1
    requires forall k :: 0 <= k < |name| ==> name[k] != '.' && !IsSeparator(name[k])
    ensures Extension(stem + "." + name) == "." + name
  {
    var path := stem + "." + name;
    var d := |stem|;
    assert path[d] == '.';
    assert forall k :: d < k < |path| ==> path[k] == name[k - d - 1];
    LastDotAt(path, d, |path|);
    assert path[d..] == "." + name;
  }

  function LowerChar(c: char): char
  {
    if 'A' <= c <= 'Z' then (c as int + 32) as char else c
  }

  /** Lower-cases the ASCII letters; other characters are kept. */
  function ToLower(s: string): string
  {
    seq(|s|, i requires 0 <= i < |s| => LowerChar(s[i]))
  }

  /** Whether an asset path names an mp3, wav or ogg file, in any letter case:
      the last component has a '.' and what follows it from that '.' on is one
      of the three audio extensions once lower-cased. */
  predicate IsAudioFile(path: string)
    ensures IsAudioFile(path) ==> |path| >= 4 && path[|path| - 4] == '.'
  {
    match LastDotInFileName(path)
    case None => false
    case Some(i) =>
      var extension := ToLower(path[i..]);
      extension == ".mp3" || extension == ".wav" || extension == ".ogg"
  }

  /** The audio-file test is the comparison of the lower-cased extension with
      ".mp3", ".wav" and ".ogg". */
  lemma IsAudioFileByExtension(path: string)
    ensures IsAudioFile(path) <==>
              var extension := ToLower(Extension(path));
              extension == ".mp3" || extension == ".wav" || extension == ".ogg"
  {
    match LastDotInFileName(path)
    case None =>
    case Some(i) =>
      if i == |path| - 1 {
        assert |ToLower(path[i..])| == 1;
      }
  }

  /** A file name ending in '.' and a dot-free name is an audio file exactly when
      that name, lower-cased, is mp3, wav or ogg. */
  lemma IsAudioFileByName(stem: string, name: string)
    requires |name| >= 1
    requires forall k :: 0 <= k < |name| ==> name[k] != '.' && !IsSeparator(name[k])
    ensures IsAudioFile(stem + "." + name) <==>
              ToLower(name) == "mp3" || ToLower(name) == "wav" || ToLower(name) == "ogg"
  {
    ExtensionOfName(stem, name);
    IsAudioFileByExtension(stem + "." + name);
    var lower := ToLower(name);
    assert ToLower("." + name) == "." + lower;
    assert ("." + lower)[1..] == lower;
    assert ".mp3" == "." + "mp3" && ".wav" == "." + "wav" && ".ogg" == "." + "ogg";
  }

  /** Conversely, every accepted path ends in '.' and three letters that are not
      a dot or a separator and spell mp3, wav or ogg in some letter case. */
  lemma AudioFileShape(path: string)
    requires IsAudioFile(path)
    ensures |path| >= 4 && path[|path| - 4] == '.'
    ensures forall k :: |path| - 3 <= k < |path| ==> path[k] != '.' && !IsSeparator(path[k])
    ensures var name := ToLower(path[|path| - 3..]); name == "mp3" || name == "wav" || name == "ogg"
  {
    IsAudioFileByExtension(path);
    var ext := Extension(path);
    assert |ext| == 4;
    assert ToLower(path[|path| - 3..]) == ToLower(ext)[1..];
  }

  /** Lower-casing a path does not move its last dot. */
  lemma {:induction false} LastDotIgnoresCase(path: string, end: nat)
    requires end <= |path|
    ensures LastDotBefore(ToLower(path), end) == LastDotBefore(path, end)
    decreases end
  {
    if end > 0 {
      LastDotIgnoresCase(path, end - 1);
    }
  }

  /** The audio-file test is insensitive to the letter case of the whole path. */
  lemma IsAudioFileIgnoresCase(path: string)
    ensures IsAudioFile(ToLower(path)) == IsAudioFile(path)
  {
    LastDotIgnoresCase(path, |path|);
    match LastDotInFileName(path)
    case None =>
    case Some(i) =>
      var lower := ToLower(path);
      assert ToLower(lower[i..]) == ToLower(path[i..]) by {
        assert forall k :: 0 <= k < |path| - i ==> ToLower(lower[i..])[k] == LowerChar(LowerChar(path[i + k]));
      }
  }

  /** An upper-case audio extension is accepted. */
  lemma UpperCaseExtensionAccepted()
    ensures IsAudioFile("Assets/Jump.WAV")
  {
    assert "Assets/Jump" + "." + "WAV" == "Assets/Jump.WAV";
    IsAudioFileByName("Assets/Jump", "WAV");
    assert ToLower("WAV") == "wav";
  }

  /** A second extension after the audio one is rejected. */
  lemma DoubleExtensionRejected()
    ensures !IsAudioFile("Assets/a.wav.txt")
  {
    assert "Assets/a.wav" + "." + "txt" == "Assets/a.wav.txt";
    IsAudioFileByName("Assets/a.wav", "txt");
    assert ToLower("txt") == "txt";
  }

  /** A dot in a folder name does not make an extension. */
  lemma FolderDotRejected()
    ensures !IsAudioFile("a.ogg/b")
  {
    var path := "a.ogg/b";
    assert IsSeparator(path[5]);
    assert LastDotInFileName(path[..6]) == None;
    assert LastDotInFileName(path) == None;
  }

  /** A backslash ends the file name, so an audio extension before it does not
      count. */
  lemma BackslashFolderRejected()
    ensures !IsAudioFile("x.wav\\y")
  {
    var path := "x.wav\\y";
    assert IsSeparator(path[5]);
    assert LastDotInFileName(path[..6]) == None;
    assert LastDotInFileName(path) == None;
  }

  /** A trailing dot leaves no extension. */
  lemma TrailingDotRejected()
    ensures !IsAudioFile("a.wav.")
  {
    var path := "a.wav.";
    assert LastDotInFileName(path) == Some(5);
  }

  // ---------------------------------------------------------------------------
  // Address collection
  // The update loops collect the addresses of the entries whose asset path
  // passes a test; the tool's test is IsAudioFile, and these definitions and
  // lemmas hold for any test.

  /** The entry passes the test and is listed under this address. */
  ghost predicate Admits(entry: AddressableEntry, address: string, keep: string -> bool)
  {
    entry.address == address && keep(entry.assetPath)
  }

  /** What one entry contributes: its address when its asset path passes the test. */
  function EntryContribution(entry: AddressableEntry, keep: string -> bool): seq<string>
  {
    if keep(entry.assetPath) then [entry.address] else []
  }

  /** The addresses of the entries that pass the test, in entry order: at most
      one per entry. */
  function EntryAddresses(entries: seq<AddressableEntry>, keep: string -> bool): (r: seq<string>)
    ensures |r| <= |entries|
  {
    if entries == [] then [] else EntryContribution(entries[0], keep) + EntryAddresses(entries[1..], keep)
  }

  /** What one group contributes: its entries' addresses when it has the given name. */
  function GroupContribution(group: AddressableGroup, groupName: string, keep: string -> bool): seq<string>
  {
    if group.name == groupName then EntryAddresses(group.entries, keep) else []
  }

  /** The addresses of the passing entries of the groups with the given name, in
      group order and then entry order; none when no group of that name has a
      passing entry. */
  function Addresses(groups: seq<AddressableGroup>, groupName: string, keep: string -> bool): (r: seq<string>)
    ensures (forall i, j :: 0 <= i < |groups| && groups[i].name == groupName && 0 <= j < |groups[i].entries| ==>
               !keep(groups[i].entries[j].assetPath)) ==> r == []
  {
    if groups == [] then []
    else
      EntryAddressesNonePass(groups[0].entries, keep);
      GroupContribution(groups[0], groupName, keep) + Addresses(groups[1..], groupName, keep)
  }

  /** Collecting over two runs of entries is collecting over each, in order. */
  lemma {:induction false} EntryAddressesAppend(first: seq<AddressableEntry>, second: seq<AddressableEntry>, keep: string -> bool)
    ensures EntryAddresses(first + second, keep) == EntryAddresses(first, keep) + EntryAddresses(second, keep)
  {
    if first == [] {
      assert first + second == second;
    } else {
      assert (first + second)[1..] == first[1..] + second;
      EntryAddressesAppend(first[1..], second, keep);
    }
  }

  /** When no entry passes the test, nothing is collected. */
  lemma {:induction false} EntryAddressesNonePass(entries: seq<AddressableEntry>, keep: string -> bool)
    ensures (forall j :: 0 <= j < |entries| ==> !keep(entries[j].assetPath)) ==> EntryAddresses(entries, keep) == []
  {
    if entries != [] {
      EntryAddressesNonePass(entries[1..], keep);
      assert forall j :: 1 <= j < |entries| ==> entries[1..][j - 1] == entries[j];
    }
  }

  /** When every entry passes the test, every entry's address is collected, one
      per entry and in entry order. */
  lemma {:induction false} EntryAddressesAllPass(entries: seq<AddressableEntry>, keep: string -> bool)
    requires forall j :: 0 <= j < |entries| ==> keep(entries[j].assetPath)
    ensures |EntryAddresses(entries, keep)| == |entries|
    ensures forall j :: 0 <= j < |entries| ==> EntryAddresses(entries, keep)[j] == entries[j].address
  {
    if entries != [] {
      EntryAddressesAllPass(entries[1..], keep);
      assert EntryContribution(entries[0], keep) == [entries[0].address];
    }
  }

  /** Collecting over two runs of groups is collecting over each, in order. */
  lemma {:induction false} AddressesAppend(first: seq<AddressableGroup>, second: seq<AddressableGroup>, groupName: string, keep: string -> bool)
    ensures Addresses(first + second, groupName, keep) == Addresses(first, groupName, keep) + Addresses(second, groupName, keep)
  {
    if first == [] {
      assert first + second == second;
    } else {
      assert (first + second)[1..] == first[1..] + second;
      AddressesAppend(first[1..], second, groupName, keep);
    }
  }

  /** Collecting up to and including entry e extends the collection up to e. */
  lemma EntryAddressesStep(entries: seq<AddressableEntry>, e: nat, keep: string -> bool)
    requires e < |entries|
    ensures EntryAddresses(entries[..e + 1], keep) == EntryAddresses(entries[..e], keep) + EntryContribution(entries[e], keep)
  {
    assert entries[..e + 1] == entries[..e] + [entries[e]];
    EntryAddressesAppend(entries[..e], [entries[e]], keep);
    assert [entries[e]][1..] == [];
  }

  /** Collecting up to and including group g extends the collection up to g. */
  lemma AddressesStep(groups: seq<AddressableGroup>, g: nat, groupName: string, keep: string -> bool)
    requires g < |groups|
    ensures Addresses(groups[..g + 1], groupName, keep) ==
              Addresses(groups[..g], groupName, keep) + GroupContribution(groups[g], groupName, keep)
  {
    assert groups[..g + 1] == groups[..g] + [groups[g]];
    AddressesAppend(groups[..g], [groups[g]], groupName, keep);
    assert [groups[g]][1..] == [];
  }

  /** An address is collected from some entries exactly when one of them passes
      the test and is listed under it. */
  lemma {:induction false} EntryAddressesMembership(entries: seq<AddressableEntry>, address: string, keep: string -> bool)
    ensures address in EntryAddresses(entries, keep) <==>
              exists j :: 0 <= j < |entries| && Admits(entries[j], address, keep)
  {
    if entries != [] {
      var rest := entries[1..];
      EntryAddressesMembership(rest, address, keep);
      assert forall j :: 1 <= j < |entries| ==> entries[j] == rest[j - 1];
      if exists j :: 0 <= j < |entries| && Admits(entries[j], address, keep) {
        var j :| 0 <= j < |entries| && Admits(entries[j], address, keep);
        if j > 0 {
          assert Admits(rest[j - 1], address, keep);
        }
      }
    }
  }

  /** An address is collected exactly when some group with the given name has an
      entry that passes the test and is listed under it. */
  lemma {:induction false} AddressesMembership(groups: seq<AddressableGroup>, groupName: string, address: string, keep: string -> bool)
    ensures address in Addresses(groups, groupName, keep) <==>
              exists i :: 0 <= i < |groups| && groups[i].name == groupName &&
                exists j :: 0 <= j < |groups[i].entries| && Admits(groups[i].entries[j], address, keep)
  {
    if groups != [] {
      var rest := groups[1..];
      AddressesMembership(rest, groupName, address, keep);
      EntryAddressesMembership(groups[0].entries, address, keep);
      assert forall i :: 1 <= i < |groups| ==> groups[i] == rest[i - 1];
      if exists i :: 0 <= i < |groups| && groups[i].name == groupName &&
           exists j :: 0 <= j < |groups[i].entries| && Admits(groups[i].entries[j], address, keep) {
        var i :| 0 <= i < |groups| && groups[i].name == groupName &&
           exists j :: 0 <= j < |groups[i].entries| && Admits(groups[i].entries[j], address, keep);
        if i > 0 {
          assert rest[i - 1] == groups[i];
        }
      }
    }
  }

  /** The tool collects exactly the addresses of the audio files of the groups
      with the given name. */
  lemma CollectsAudioFiles(groups: seq<AddressableGroup>, groupName: string, address: string)
    ensures address in Addresses(groups, groupName, IsAudioFile) <==>
              exists i :: 0 <= i < |groups| && groups[i].name == groupName &&
                exists j :: 0 <= j < |groups[i].entries| &&
                  groups[i].entries[j].address == address && IsAudioFile(groups[i].entries[j].assetPath)
  {
    AddressesMembership(groups, groupName, address, IsAudioFile);
  }

  // ---------------------------------------------------------------------------
  // Rendering the generated class

  const NewLine := "\n"
  const HeaderLine := "// Auto-generated audio paths"

  function ClassLine(className: string): string
  {
    "public static class " + className + " {"
  }

  /** The constant declared for one address: its name and its value are both the address. */
  function FieldLine(address: string): string
  {
    "    public static readonly string " + address + " = \"" + address + "\";"
  }

  function FieldLines(addresses: seq<string>): seq<string>
  {
    seq(|addresses|, i requires 0 <= i < |addresses| => FieldLine(addresses[i]))
  }

  function SourceLines(addresses: seq<string>, className: string): seq<string>
  {
    [HeaderLine, ClassLine(className)] + FieldLines(addresses) + ["}"]
  }

  /** Each line followed by a line terminator. */
  function JoinLines(lines: seq<string>): string
  {
    if lines == [] then [] else lines[0] + NewLine + JoinLines(lines[1..])
  }

  /** The text of the generated class: it opens with the header comment on a
      line of its own and ends with the closing brace and a line terminator. */
  function RenderPathClass(addresses: seq<string>, className: string): (text: string)
    ensures |HeaderLine + NewLine| <= |text| && text[..|HeaderLine + NewLine|] == HeaderLine + NewLine
    ensures 2 <= |text| && text[|text| - 2..] == "}" + NewLine
  {
    var lines := SourceLines(addresses, className);
    assert lines == lines[..|lines| - 1] + ["}"];
    JoinLinesSnoc(lines[..|lines| - 1], "}");
    JoinLines(lines)
  }

  /** The position of the first line terminator, if any. */
  function FirstNewline(text: string): (r: Option<nat>)
    ensures r.Some? ==> r.value < |text| && text[r.value] == '\n' && '\n' !in text[..r.value]
    ensures r.None? ==> '\n' !in text
  {
    if text == [] then None
    else if text[0] == '\n' then Some(0)
    else
      match FirstNewline(text[1..])
      case None => None
      case Some(i) => assert text[..i + 1] == [text[0]] + text[1..][..i]; Some(i + 1)
  }

  /** Reads a text back as its lines: the pieces between line terminators, with a
      final unterminated piece kept as a line. */
  function SplitLines(text: string): seq<string>
    decreases |text|
  {
    if text == [] then []
    else
      match FirstNewline(text)
      case None => [text]
      case Some(i) => [text[..i]] + SplitLines(text[i + 1..])
  }

  /** Appending a line appends it and one terminator to the text. */
  lemma {:induction false} JoinLinesSnoc(lines: seq<string>, line: string)
    ensures JoinLines(lines + [line]) == JoinLines(lines) + line + NewLine
  {
    if lines != [] {
      assert (lines + [line])[1..] == lines[1..] + [line];
      JoinLinesSnoc(lines[1..], line);
    }
  }

  /** Lines without terminators are read back exactly from their joined text. */
  lemma {:induction false} SplitJoinLines(lines: seq<string>)
    requires forall k :: 0 <= k < |lines| ==> '\n' !in lines[k]
    ensures SplitLines(JoinLines(lines)) == lines
  {
    if lines != [] {
      var text := JoinLines(lines);
      var first := lines[0];
      assert text == first + NewLine + JoinLines(lines[1..]);
      assert text[|first|] == '\n';
      assert text[..|first|] == first;
      assert FirstNewline(text) == Some(|first|);
      assert text[|first| + 1..] == JoinLines(lines[1..]);
      SplitJoinLines(lines[1..]);
    }
  }

  /** The text built before the first address: the header line and the class line. */
  lemma OpeningText(paths: seq<string>, className: string)
    ensures JoinLines([HeaderLine, ClassLine(className)] + FieldLines(paths[..0])) ==
              [] + HeaderLine + NewLine + "public static class " + className + " {" + NewLine
  {
    assert [HeaderLine, ClassLine(className)] + FieldLines(paths[..0]) == [HeaderLine] + [ClassLine(className)];
    JoinLinesSnoc([HeaderLine], ClassLine(className));
  }

  /** Building the line of address i extends the text by that line and its terminator. */
  lemma FieldLineText(paths: seq<string>, i: nat, className: string)
    requires i < |paths|
    ensures JoinLines([HeaderLine, ClassLine(className)] + FieldLines(paths[..i + 1])) ==
              JoinLines([HeaderLine, ClassLine(className)] + FieldLines(paths[..i])) + FieldLine(paths[i]) + NewLine
  {
    var opening := [HeaderLine, ClassLine(className)];
    assert FieldLines(paths[..i + 1]) == FieldLines(paths[..i]) + [FieldLine(paths[i])];
    assert opening + FieldLines(paths[..i + 1]) == (opening + FieldLines(paths[..i])) + [FieldLine(paths[i])];
    JoinLinesSnoc(opening + FieldLines(paths[..i]), FieldLine(paths[i]));
  }

  /** The closing brace completes the text of the class. */
  lemma ClosingText(paths: seq<string>, className: string)
    ensures RenderPathClass(paths, className) ==
              JoinLines([HeaderLine, ClassLine(className)] + FieldLines(paths[..|paths|])) + "}" + NewLine
  {
    assert paths[..|paths|] == paths;
    JoinLinesSnoc([HeaderLine, ClassLine(className)] + FieldLines(paths), "}");
  }

  /** The generated text reads back as the header comment, the class line, one
      constant per address in list order and the closing brace: |addresses| + 3
      lines, provided no address and not the class name holds a line terminator. */
  lemma RenderedLines(addresses: seq<string>, className: string)
    requires '\n' !in className
    requires forall k :: 0 <= k < |addresses| ==> '\n' !in addresses[k]
    ensures |SplitLines(RenderPathClass(addresses, className))| == |addresses| + 3
    ensures SplitLines(RenderPathClass(addresses, className))[0] == HeaderLine
    ensures SplitLines(RenderPathClass(addresses, className))[1] == ClassLine(className)
    ensures forall k :: 0 <= k < |addresses| ==>
              SplitLines(RenderPathClass(addresses, className))[k + 2] == FieldLine(addresses[k])
    ensures SplitLines(RenderPathClass(addresses, className))[|addresses| + 2] == "}"
  {
    var lines := SourceLines(addresses, className);
    SourceLinesOnOneLine(addresses, className);
    assert |lines| == |addresses| + 3 && lines[0] == HeaderLine && lines[1] == ClassLine(className);
    assert forall k :: 0 <= k < |addresses| ==> lines[k + 2] == FieldLine(addresses[k]);
    assert lines[|addresses| + 2] == "}";
    SplitJoinLines(lines);
    assert SplitLines(RenderPathClass(addresses, className)) == lines;
  }

  /** No line of the class holds a line terminator when neither the class name
      nor any address does. */
  lemma SourceLinesOnOneLine(addresses: seq<string>, className: string)
    requires '\n' !in className
    requires forall k :: 0 <= k < |addresses| ==> '\n' !in addresses[k]
    ensures forall k :: 0 <= k < |SourceLines(addresses, className)| ==> '\n' !in SourceLines(addresses, className)[k]
  {
    var lines := SourceLines(addresses, className);
    forall k | 0 <= k < |lines|
      ensures '\n' !in lines[k]
    {
      if k == 0 {
        HeaderOnOneLine();
      } else if k == 1 {
        ClassLineOnOneLine(className);
      } else if k < |lines| - 1 {
        assert lines[k] == FieldLine(addresses[k - 2]);
        FieldLineOnOneLine(addresses[k - 2]);
      }
    }
  }

  lemma HeaderOnOneLine()
    ensures '\n' !in HeaderLine
  {
  }

  lemma ClassLineOnOneLine(className: string)
    requires '\n' !in className
    ensures '\n' !in ClassLine(className)
  {
  }

  lemma FieldLineOnOneLine(address: string)
    requires '\n' !in address
    ensures '\n' !in FieldLine(address)
  {
  }

  // ---------------------------------------------------------------------------
  // Output location

  /** The host's combination of two relative path parts: an empty part yields the
      other, a rooted second part replaces the first, and otherwise a separator
      is inserted unless the first part already ends with one. */
  function CombinePath(path1: string, path2: string): (r: string)
    ensures |path2| == 0 ==> r == path1
    ensures |path1| == 0 ==> r == path2
    ensures |r| <= |path1| + |path2| + 1
  {
    if |path2| == 0 then path1
    else if |path1| == 0 then path2
    else if IsSeparator(path2[0]) then path2
    else if IsSeparator(path1[|path1| - 1]) then path1 + path2
    else path1 + "/" + path2
  }

  /** The second part always ends the combined path. When both parts are
      present and the second is not rooted, the first part starts it, and the
      second part follows a separator: it starts a new path component. */
  lemma CombinePathJoins(path1: string, path2: string)
    ensures var r := CombinePath(path1, path2); |path2| <= |r| && r[|r| - |path2|..] == path2
    ensures var r := CombinePath(path1, path2);
              |path1| > 0 && |path2| > 0 && !IsSeparator(path2[0]) ==>
                |path1| <= |r| - |path2| && r[..|path1|] == path1 && IsSeparator(r[|r| - |path2| - 1])
  {
  }

  /** The SE class is written into the SE script folder and the BGM class into
      the BGM script folder, each file named after its class. */
  lemma OutputFilePaths()
    ensures CombinePath(SEPath, SEClassName + ".cs") == "Assets/AudioManager/Scripts/SE/SEPath.cs"
    ensures CombinePath(BGMPath, BGMClassName + ".cs") == "Assets/AudioManager/Scripts/BGM/BGMPath.cs"
  {
  }

  // ---------------------------------------------------------------------------
  // The tool's state: the last collected address lists and the files written

  class AudioPathGenerator {
    var seAddressList: seq<string>
    var bgmAddressList: seq<string>
    var writes: seq<FileWrite>

    constructor ()
      ensures seAddressList == [] && bgmAddressList == [] && writes == []
    {
      seAddressList := [];
      bgmAddressList := [];
      writes := [];
    }

    /** Replaces the SE address list with the addresses of the SE group's audio
        entries and writes the SE class. The result depends on the groups alone,
        so running it twice on the same groups gives the same list and text. */
    method UpdateSEPaths(groups: seq<AddressableGroup>)
      modifies this`seAddressList, this`writes
      ensures seAddressList == Addresses(groups, SEGroupName, IsAudioFile)
      ensures writes == old(writes) +
                [FileWrite(CombinePath(SEPath, SEClassName + ".cs"), RenderPathClass(seAddressList, SEClassName))]
    {
      seAddressList := [];
      var g := 0;
      while g < |groups|
        invariant 0 <= g <= |groups|
        invariant seAddressList == Addresses(groups[..g], SEGroupName, IsAudioFile)
        invariant writes == old(writes)
      {
        AddressesStep(groups, g, SEGroupName, IsAudioFile);
        if groups[g].name != SEGroupName {
          g := g + 1;
          continue;
        }
        AppendSEEntryAddresses(groups[g].entries, IsAudioFile);
        g := g + 1;
      }
      assert groups[..g] == groups;
      WriteAudioPathsToFile(seAddressList, SEPath, SEClassName);
    }

    /** The inner loop over one SE group: appends to the SE list, in entry
        order, the address of each entry whose asset path passes the test, and
        skips the other entries. The tool's test is IsAudioFile. */
    method AppendSEEntryAddresses(entries: seq<AddressableEntry>, keep: string -> bool)
      modifies this`seAddressList
      ensures seAddressList == old(seAddressList) + EntryAddresses(entries, keep)
    {
      var e := 0;
      while e < |entries|
        invariant 0 <= e <= |entries|
        invariant seAddressList == old(seAddressList) + EntryAddresses(entries[..e], keep)
      {
        EntryAddressesStep(entries, e, keep);
        var entry := entries[e];
        if !keep(entry.assetPath) {
          assert EntryContribution(entry, keep) == [];
          e := e + 1;
          continue;
        }
        assert EntryContribution(entry, keep) == [entry.address];
        seAddressList := seAddressList + [entry.address];
        e := e + 1;
      }
      assert entries[..e] == entries;
    }

    /** Replaces the BGM address list with the addresses of the BGM group's audio
        entries and writes the BGM class. The result depends on the groups alone,
        so running it twice on the same groups gives the same list and text. */
    method UpdateBGMPaths(groups: seq<AddressableGroup>)
      modifies this`bgmAddressList, this`writes
      ensures bgmAddressList == Addresses(groups, BGMGroupName, IsAudioFile)
      ensures writes == old(writes) +
                [FileWrite(CombinePath(BGMPath, BGMClassName + ".cs"), RenderPathClass(bgmAddressList, BGMClassName))]
    {
      bgmAddressList := [];
      var g := 0;
      while g < |groups|
        invariant 0 <= g <= |groups|
        invariant bgmAddressList == Addresses(groups[..g], BGMGroupName, IsAudioFile)
        invariant writes == old(writes)
      {
        AddressesStep(groups, g, BGMGroupName, IsAudioFile);
        if groups[g].name != BGMGroupName {
          g := g + 1;
          continue;
        }
        AppendBGMEntryAddresses(groups[g].entries, IsAudioFile);
        g := g + 1;
      }
      assert groups[..g] == groups;
      WriteAudioPathsToFile(bgmAddressList, BGMPath, BGMClassName);
    }

    /** The inner loop over one BGM group: appends to the BGM list, in entry
        order, the address of each entry whose asset path passes the test, and
        skips the other entries. The tool's test is IsAudioFile. */
    method AppendBGMEntryAddresses(entries: seq<AddressableEntry>, keep: string -> bool)
      modifies this`bgmAddressList
      ensures bgmAddressList == old(bgmAddressList) + EntryAddresses(entries, keep)
    {
      var e := 0;
      while e < |entries|
        invariant 0 <= e <= |entries|
        invariant bgmAddressList == old(bgmAddressList) + EntryAddresses(entries[..e], keep)
      {
        EntryAddressesStep(entries, e, keep);
        var entry := entries[e];
        if !keep(entry.assetPath) {
          assert EntryContribution(entry, keep) == [];
          e := e + 1;
          continue;
        }
        assert EntryContribution(entry, keep) == [entry.address];
        bgmAddressList := bgmAddressList + [entry.address];
        e := e + 1;
      }
      assert entries[..e] == entries;
    }

    /** Updates the SE class and then the BGM class. */
    method UpdateAllAudioPaths(groups: seq<AddressableGroup>)
      modifies this`seAddressList, this`bgmAddressList, this`writes
      ensures seAddressList == Addresses(groups, SEGroupName, IsAudioFile)
      ensures bgmAddressList == Addresses(groups, BGMGroupName, IsAudioFile)
      ensures writes == old(writes) +
                [FileWrite(CombinePath(SEPath, SEClassName + ".cs"), RenderPathClass(seAddressList, SEClassName)),
                 FileWrite(CombinePath(BGMPath, BGMClassName + ".cs"), RenderPathClass(bgmAddressList, BGMClassName))]
    {
      UpdateSEPaths(groups);
      UpdateBGMPaths(groups);
    }

    /** Builds the class text line by line and records it as written to the
        class's file in the given folder. */
    method WriteAudioPathsToFile(paths: seq<string>, folderPath: string, fileName: string)
      modifies this`writes
      ensures writes == old(writes) +
                [FileWrite(CombinePath(folderPath, fileName + ".cs"), RenderPathClass(paths, fileName))]
    {
      var filePath := CombinePath(folderPath, fileName + ".cs");
      var sb: string := [];
      sb := sb + HeaderLine + NewLine;
      sb := sb + "public static class " + fileName;
      sb := sb + " {" + NewLine;
      OpeningText(paths, fileName);
      var i := 0;
      while i < |paths|
        invariant 0 <= i <= |paths|
        invariant sb == JoinLines([HeaderLine, ClassLine(fileName)] + FieldLines(paths[..i]))
        invariant writes == old(writes)
      {
        FieldLineText(paths, i, fileName);
        sb := sb + FieldLine(paths[i]) + NewLine;
        i := i + 1;
      }
      ClosingText(paths, fileName);
      sb := sb + "}" + NewLine;
      writes := writes + [FileWrite(filePath, sb)];
    }
  }
}
