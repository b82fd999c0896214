/**
 The registry of component libraries: the search path, the file the registrar
 writes and what the loader reads back from it.
 */
module Registry {
  import opened Basics

  // ---------------------------------------------------------------------------
  // The search path
  // ---------------------------------------------------------------------------

  /** The part of the path before the first colon. */
  function Segment(path: string): (s: string)
    ensures s <= path && ':' !in s && (|s| < |path| ==> path[|s|] == ':')
  {
    if path == "" || path[0] == ':' then "" else [path[0]] + Segment(path[1..])
  }

  function Split(path: string): (segments: seq<string>)
    ensures |segments| > 0
    decreases |path|
  {
    var s := Segment(path);
    if |s| == |path| then [s] else [s] + Split(path[|s| + 1..])
  }

  function Join(segments: seq<string>): string
    requires |segments| > 0
  {
    if |segments| == 1 then segments[0] else segments[0] + ":" + Join(segments[1..])
  }

  /** A directory as it is scanned: with a slash at its end. */
  function Directory(segment: string): string {
    if segment != "" && segment[|segment| - 1] == '/' then segment else segment + "/"
  }

  function Directories(segments: seq<string>): seq<string> {
    seq(|segments|, i requires 0 <= i < |segments| => Directory(segments[i]))
  }

  /** The first one: for an empty segment the code looks at the character before the path. */
  function FirstDirectory(segment: string, before: char): string {
    if segment == "" && before == '/' then "" else Directory(segment)
  }

  function DirectoriesAfter(segments: seq<string>, before: char): seq<string> {
    seq(|segments|, i requires 0 <= i < |segments| => if i == 0 then FirstDirectory(segments[i], before) else Directory(segments[i]))
  }

  predicate ColonFree(segments: seq<string>) { forall i :: 0 <= i < |segments| ==> ':' !in segments[i] }

  /** Splitting and joining are inverse to each other. */
  lemma {:induction false} JoinOfSplit(path: string)
    ensures Join(Split(path)) == path && ColonFree(Split(path))
    decreases |path|
  {
    var s := Segment(path);
    if |s| == |path| {
    } else {
      JoinOfSplit(path[|s| + 1..]);
      assert path == s + ":" + path[|s| + 1..];
    }
  }

  lemma {:induction false} SegmentOfJoin(s: string, rest: string)
    requires ':' !in s
    ensures Segment(s + ":" + rest) == s && Segment(s) == s
    decreases |s|
  {
    if s == "" {
      assert s + ":" + rest == ":" + rest;
    } else {
      assert (s + ":" + rest)[1..] == s[1..] + ":" + rest;
      SegmentOfJoin(s[1..], rest);
    }
  }

  lemma {:induction false} SplitOfJoin(segments: seq<string>)
    requires |segments| > 0 && ColonFree(segments)
    ensures Split(Join(segments)) == segments
    decreases |segments|
  {
    var s := segments[0];
    if |segments| == 1 {
      SegmentOfJoin(s, "");
    } else {
      var rest := Join(segments[1..]);
      SegmentOfJoin(s, rest);
      assert (s + ":" + rest)[|s| + 1..] == rest;
      SplitOfJoin(segments[1..]);
    }
  }

  /**
   The directories, joined again, are the path with a slash added to the segments
   that lack one; so they are the path itself exactly when none lacks one.
   */
  lemma PathSurvivesExactly(path: string)
    ensures var segments := Split(path);
            Join(Directories(segments)) == path <==> forall i :: 0 <= i < |segments| ==> Directory(segments[i]) == segments[i]
  {
    var segments := Split(path);
    JoinOfSplit(path);
    var dirs := Directories(segments);
    assert ColonFree(dirs);
    SplitOfJoin(dirs);
    if forall i :: 0 <= i < |segments| ==> Directory(segments[i]) == segments[i] {
      assert dirs == segments;
    } else {
      assert dirs != segments by {
        var i :| 0 <= i < |segments| && Directory(segments[i]) != segments[i];
        assert dirs[i] != segments[i];
      }
    }
  }

  /** The inner loop: how far the current segment reaches. */
  method SegmentEnd(path: string, current: nat) returns (index: nat)
    requires current <= |path|
    ensures current + index <= |path| && (current + index < |path| ==> path[current + index] == ':')
    ensures Segment(path[current..]) == path[current..current + index]
  {
    index := 0;
    while current + index < |path| && path[current + index] != ':'
      invariant current + index <= |path| && ':' !in path[current..current + index]
      decreases |path| - index
    {
      index := index + 1;
    }
    assert path[current..][..index] == path[current..current + index];
    SegmentIs(path[current..], index);
  }

  /** The directory of one segment; before an empty one there is a colon, or what is before the path. */
  method Actual(path: string, before: char, current: nat, index: nat) returns (actual: string)
    requires current + index <= |path| && (current > 0 ==> path[current - 1] == ':')
    ensures var s := path[current..current + index]; actual == if current == 0 then FirstDirectory(s, before) else Directory(s)
  {
    actual := path[current..current + index];
    var last := if current + index > 0 then path[current + index - 1] else before;
    if last != '/' {
      actual := actual + "/";
    }
  }

  /** The segments from `current` on; past the end of the path there are none. */
  function Rest(path: string, current: nat): seq<string> {
    if current <= |path| then Split(path[current..]) else []
  }

  /** One turn of the outer loop: the directory of the current segment, and where the next one begins. */
  method NextDirectory(path: string, before: char, current: nat) returns (actual: string, next: nat)
    requires current <= |path| && (current > 0 ==> path[current - 1] == ':')
    ensures current < next <= |path| + 1 && (next <= |path| ==> path[next - 1] == ':')
    ensures var s := path[current..next - 1];
            && actual == (if current == 0 then FirstDirectory(s, before) else Directory(s))
            && Rest(path, current) == [s] + Rest(path, next)
  {
    var index := SegmentEnd(path, current);
    actual := Actual(path, before, current, index);
    next := current + index + 1;
    RestAfter(path, current, next);
  }

  lemma RestAfter(path: string, current: nat, next: nat)
    requires current < next <= |path| + 1 && Segment(path[current..]) == path[current..next - 1]
    ensures Rest(path, current) == [path[current..next - 1]] + Rest(path, next)
  {
    var s, rest := path[current..next - 1], path[current..];
    assert |s| == next - 1 - current && (|s| == |rest| <==> next == |path| + 1);
    if next <= |path| {
      assert rest[|s| + 1..] == path[next..];
    }
  }

  lemma OneMoreSegment(segments: seq<string>, s: string, rest: seq<string>, more: seq<string>)
    requires rest == [s] + more
    ensures segments + rest == (segments + [s]) + more
  {}

  lemma OneMoreDirectory(segments: seq<string>, before: char, s: string)
    ensures DirectoriesAfter(segments + [s], before) ==
            DirectoriesAfter(segments, before) + [if segments == [] then FirstDirectory(s, before) else Directory(s)]
  {}

  /** The loops at the head of buildComponentsList; `before` is the character before the path in memory. */
  method SplitPath(path: string, before: char) returns (directories: seq<string>)
    ensures directories == DirectoriesAfter(Split(path), before)
    ensures |directories| == |Split(path)| && forall i :: 0 <= i < |directories| ==>
              var segment := Split(path)[i];
              directories[i] == if (if segment != "" then segment[|segment| - 1] == '/' else i == 0 && before == '/') then segment
                                else segment + "/"
  {
    directories := [];
    ghost var segments: seq<string> := [];
    var current, consumed := 0, false;
    assert path[0..] == path;
    while !consumed
      invariant directories == DirectoriesAfter(segments, before) && segments + Rest(path, current) == Split(path)
      invariant 0 <= current <= |path| + 1 && (consumed <==> current == |path| + 1) && (segments == [] <==> current == 0)
      invariant 0 < current <= |path| ==> path[current - 1] == ':'
      decreases |path| + 1 - current
    {
      var actual, next := NextDirectory(path, before, current);
      ghost var s := path[current..next - 1];
      OneMoreSegment(segments, s, Rest(path, current), Rest(path, next));
      OneMoreDirectory(segments, before, s);
      segments, directories := segments + [s], directories + [actual];
      current, consumed := next, next == |path| + 1;
    }
  }

  /** What is before the path in memory makes a difference exactly when it is a slash and the path begins with an empty segment. */
  lemma MemoryMattersExactly(path: string, before: char)
    ensures DirectoriesAfter(Split(path), before) != Directories(Split(path)) <==> before == '/' && (path == "" || path[0] == ':')
  {
    var segments := Split(path);
    assert segments[0] == Segment(path);
    if before == '/' && segments[0] == "" {
      assert DirectoriesAfter(segments, before)[0] != Directories(segments)[0];
    }
  }

  lemma {:induction false} SegmentIs(path: string, k: nat)
    requires k <= |path| && ':' !in path[..k] && (k < |path| ==> path[k] == ':')
    ensures Segment(path) == path[..k]
  {
    if k < |path| {
      assert path == path[..k] + ":" + path[k + 1..];
      SegmentOfJoin(path[..k], path[k + 1..]);
    } else {
      assert path[..k] == path;
      SegmentOfJoin(path, "");
    }
  }

  // ---------------------------------------------------------------------------
  // The registrar
  // ---------------------------------------------------------------------------

  datatype Component = Component(name: string, specifics: seq<string>)

  datatype Library = Library(path: string, components: seq<Component>)

  const ARROW := " ==> "

  function SpecificsText(specifics: seq<string>): string {
    if specifics == [] then "" else SpecificsText(specifics[..|specifics| - 1]) + specifics[|specifics| - 1] + ":"
  }

  function Line(c: Component): string {
    ARROW + c.name + if c.specifics != [] then ARROW + SpecificsText(c.specifics) else ""
  }

  /** A scan: the component names met so far, and the lines written. */
  datatype Scan = Scan(names: seq<string>, lines: seq<string>)

  function AddComponent(s: Scan, c: Component): Scan {
    if c.name in s.names then s else Scan(s.names + [c.name], s.lines + [Line(c)])
  }

  function AddComponents(s: Scan, cs: seq<Component>): Scan {
    if cs == [] then s else AddComponent(AddComponents(s, cs[..|cs| - 1]), cs[|cs| - 1])
  }

  function AddLibrary(s: Scan, lib: Library): Scan {
    AddComponents(s.(lines := s.lines + [lib.path]), lib.components)
  }

  function Scanned(libs: seq<Library>): Scan {
    if libs == [] then Scan([], []) else AddLibrary(Scanned(libs[..|libs| - 1]), libs[|libs| - 1])
  }

  /** The file: every line with a newline after it. */
  function Text(lines: seq<string>): string {
    if lines == [] then "" else Text(lines[..|lines| - 1]) + lines[|lines| - 1] + "\n"
  }

  /** The walk along the list of names already registered. */
  method Registered(names: seq<string>, name: string) returns (found: bool)
    ensures found <==> name in names
  {
    for i := 0 to |names|
      invariant name !in names[..i]
    {
      if names[i] == name {
        return true;
      }
    }
    return false;
  }

  /** The buffer for one component, built by appending. */
  method BuildLine(c: Component) returns (buffer: string)
    ensures buffer == Line(c)
  {
    buffer := ARROW + c.name;
    if |c.specifics| > 0 {
      ghost var head := buffer + ARROW;
      buffer := buffer + ARROW;
      for j := 0 to |c.specifics|
        invariant buffer == head + SpecificsText(c.specifics[..j])
      {
        buffer := buffer + c.specifics[j] + ":";
        assert c.specifics[..j + 1][..j] == c.specifics[..j];
      }
      assert c.specifics[..|c.specifics|] == c.specifics;
    }
  }

  /** The libraries of one scan, written to the registry in the order they are found. */
  method WriteRegistry(libs: seq<Library>) returns (text: string)
    ensures text == Text(Scanned(libs).lines)
  {
    text := "";
    var names: seq<string> := [];
    for k := 0 to |libs|
      invariant Scanned(libs[..k]).names == names && text == Text(Scanned(libs[..k]).lines)
    {
      ghost var start := Scanned(libs[..k]);
      start := start.(lines := start.lines + [libs[k].path]);
      text := text + libs[k].path + "\n";
      for i := 0 to |libs[k].components|
        invariant var s := AddComponents(start, libs[k].components[..i]); s.names == names && text == Text(s.lines)
      {
        var c := libs[k].components[i];
        assert libs[k].components[..i + 1][..i] == libs[k].components[..i];
        var found := Registered(names, c.name);
        if !found {
          names := names + [c.name];
          var line := BuildLine(c);
          text := text + line + "\n";
        }
      }
      assert libs[k].components[..|libs[k].components|] == libs[k].components;
      assert libs[..k + 1][..k] == libs[..k];
    }
    assert libs[..|libs|] == libs;
  }

  // ---------------------------------------------------------------------------
  // The loader
  // ---------------------------------------------------------------------------

  /** Reading a file character by character: the lines ended so far, and the one under way. */
  datatype Reading = Reading(lines: seq<string>, current: string)

  function Read(text: string): Reading {
    if text == "" then Reading([], "")
    else
      var r, c := Read(text[..|text| - 1]), text[|text| - 1];
      if c == '\n' then Reading(r.lines + [r.current], "") else r.(current := r.current + [c])
  }

  /** A line about components, which the loader skips. */
  predicate Skipped(line: string) { |line| >= 2 && line[0] == ' ' && line[1] == '=' }

  function Kept(lines: seq<string>): seq<string> {
    if lines == [] then []
    else Kept(lines[..|lines| - 1]) + if Skipped(lines[|lines| - 1]) then [] else [lines[|lines| - 1]]
  }

  lemma ReadChar(text: string, k: nat)
    requires k < |text|
    ensures var r := Read(text[..k]);
            Read(text[..k + 1]) == if text[k] == '\n' then Reading(r.lines + [r.current], "") else r.(current := r.current + [text[k]])
  {
    assert text[..k + 1][..k] == text[..k];
  }

  /** One line as `getline` delivers it. */
  method GetLine(text: string, pos: nat) returns (line: string)
    requires pos < |text| && text[|text| - 1] == '\n' && Read(text[..pos]).current == ""
    ensures pos + |line| < |text|
    ensures Read(text[..pos + |line| + 1]) == Reading(Read(text[..pos]).lines + [line], "")
  {
    ghost var lines := Read(text[..pos]).lines;
    line := "";
    while text[pos + |line|] != '\n'
      invariant pos + |line| < |text| && Read(text[..pos + |line|]) == Reading(lines, line)
      decreases |text| - |line|
    {
      ReadChar(text, pos + |line|);
      line := line + [text[pos + |line|]];
    }
    ReadChar(text, pos + |line|);
  }

  /** The loop of BOSA_ST_InitComponentLoader over the lines of the registry. */
  method ReadRegistry(text: string) returns (libraries: seq<string>)
    requires text == "" || text[|text| - 1] == '\n'
    ensures libraries == Kept(Read(text).lines)
    ensures forall line :: line in libraries <==> line in Read(text).lines && !(" =" <= line)
  {
    libraries := [];
    var pos := 0;
    while pos < |text|
      invariant pos <= |text| && Read(text[..pos]).current == "" && libraries == Kept(Read(text[..pos]).lines)
    {
      var line := GetLine(text, pos);
      if !(|line| >= 2 && line[0] == ' ' && line[1] == '=') {
        libraries := libraries + [line];
      }
      pos := pos + |line| + 1;
    }
    assert text[..|text|] == text;
    KeptExactly(Read(text).lines);
  }

  lemma {:induction false} KeptExactly(lines: seq<string>)
    ensures forall line :: line in Kept(lines) <==> line in lines && !(" =" <= line)
  {
    if lines != [] {
      var front, last := lines[..|lines| - 1], lines[|lines| - 1];
      KeptExactly(front);
      assert Skipped(last) <==> " =" <= last;
      forall line ensures line in lines <==> line in front || line == last { assert lines == front + [last]; }
    }
  }

  // ---------------------------------------------------------------------------
  // The round trip
  // ---------------------------------------------------------------------------

  predicate OneLine(s: string) { '\n' !in s }
  predicate AllOneLine(lines: seq<string>) { forall i :: 0 <= i < |lines| ==> OneLine(lines[i]) }

  lemma {:induction false} ReadMore(text: string, line: string)
    requires OneLine(line)
    ensures Read(text + line) == Read(text).(current := Read(text).current + line)
  {
    if line == "" {
      assert text + line == text;
    } else {
      var front := line[..|line| - 1];
      assert (text + line)[..|text + line| - 1] == text + front;
      ReadMore(text, front);
    }
  }

  lemma ReadNewline(text: string)
    ensures Read(text + "\n") == Reading(Read(text).lines + [Read(text).current], "")
  {
    assert (text + "\n")[..|text|] == text;
  }

  lemma {:induction false} ReadOfText(lines: seq<string>)
    requires AllOneLine(lines)
    ensures Read(Text(lines)) == Reading(lines, "")
  {
    if lines == [] {
    } else {
      var front, last := lines[..|lines| - 1], lines[|lines| - 1];
      ReadOfText(front);
      ReadMore(Text(front), last);
      ReadNewline(Text(front) + last);
      assert [] + last == last && front + [last] == lines;
    }
  }

  lemma {:induction false} ReadIsOneLine(text: string)
    ensures OneLine(Read(text).current) && AllOneLine(Read(text).lines)
  {
    if text == "" {
    } else {
      ReadIsOneLine(text[..|text| - 1]);
    }
  }

  lemma {:induction false} KeptAreKept(lines: seq<string>)
    ensures forall x :: x in Kept(lines) ==> x in lines && !Skipped(x)
  {
    if lines == [] {
    } else {
      KeptAreKept(lines[..|lines| - 1]);
    }
  }

  function Paths(libs: seq<Library>): seq<string> { seq(|libs|, i requires 0 <= i < |libs| => libs[i].path) }

  lemma PathsMore(libs: seq<Library>, lib: Library)
    ensures Paths(libs + [lib]) == Paths(libs) + [lib.path]
  {}

  predicate NamesOneLine(c: Component) { OneLine(c.name) && forall j :: 0 <= j < |c.specifics| ==> OneLine(c.specifics[j]) }

  predicate Readable(path: string) { OneLine(path) && !Skipped(path) }

  lemma {:induction false} LineIsSkipped(c: Component)
    requires NamesOneLine(c)
    ensures Skipped(Line(c)) && OneLine(Line(c))
  {
    SpecificsOneLine(c.specifics);
  }

  lemma {:induction false} SpecificsOneLine(specifics: seq<string>)
    requires forall j :: 0 <= j < |specifics| ==> OneLine(specifics[j])
    ensures OneLine(SpecificsText(specifics))
  {
    if specifics == [] {
    } else {
      SpecificsOneLine(specifics[..|specifics| - 1]);
    }
  }

  /** Lines about components change neither what is kept nor that all lines are single. */
  lemma {:induction false} ComponentsSkipped(s: Scan, cs: seq<Component>)
    requires forall i :: 0 <= i < |cs| ==> NamesOneLine(cs[i])
    requires AllOneLine(s.lines)
    ensures Kept(AddComponents(s, cs).lines) == Kept(s.lines) && AllOneLine(AddComponents(s, cs).lines)
  {
    if cs == [] {
    } else {
      ComponentsSkipped(s, cs[..|cs| - 1]);
      LineIsSkipped(cs[|cs| - 1]);
    }
  }

  lemma LibraryKept(s: Scan, lib: Library)
    requires AllOneLine(s.lines) && Readable(lib.path)
    requires forall i :: 0 <= i < |lib.components| ==> NamesOneLine(lib.components[i])
    ensures Kept(AddLibrary(s, lib).lines) == Kept(s.lines) + [lib.path] && AllOneLine(AddLibrary(s, lib).lines)
  {
    var t := s.(lines := s.lines + [lib.path]);
    ComponentsSkipped(t, lib.components);
    assert t.lines[..|t.lines| - 1] == s.lines;
  }

  /** No name in the library contains a newline. */
  predicate AllNamesOneLine(lib: Library) {
    forall i :: 0 <= i < |lib.components| ==> NamesOneLine(lib.components[i])
  }

  lemma {:induction false} PathsAreKept(libs: seq<Library>)
    requires forall k :: 0 <= k < |libs| ==> Readable(libs[k].path)
    requires forall k :: 0 <= k < |libs| ==> AllNamesOneLine(libs[k])
    ensures Kept(Scanned(libs).lines) == Paths(libs) && AllOneLine(Scanned(libs).lines)
  {
    if libs == [] {
    } else {
      var front, lib := libs[..|libs| - 1], libs[|libs| - 1];
      PathsAreKept(front);
      LibraryKept(Scanned(front), lib);
      PathsMore(front, lib);
      assert libs == front + [lib];
    }
  }

  /**
   The loader reads back exactly the libraries the registrar wrote, if and only if
   no path contains a newline or begins with " =".
   */
  lemma RoundTripExactly(libs: seq<Library>)
    requires forall k :: 0 <= k < |libs| ==> AllNamesOneLine(libs[k])
    ensures Kept(Read(Text(Scanned(libs).lines)).lines) == Paths(libs) <==>
            forall k :: 0 <= k < |libs| ==> Readable(libs[k].path)
  {
    var text := Text(Scanned(libs).lines);
    if forall k :: 0 <= k < |libs| ==> Readable(libs[k].path) {
      PathsAreKept(libs);
      ReadOfText(Scanned(libs).lines);
    }
    ReadIsOneLine(text);
    KeptAreKept(Read(text).lines);
    if Kept(Read(text).lines) == Paths(libs) {
      forall k | 0 <= k < |libs| ensures Readable(libs[k].path) {
        assert Paths(libs)[k] in Kept(Read(text).lines);
      }
    }
  }

  // ---------------------------------------------------------------------------
  // Each name once
  // ---------------------------------------------------------------------------

  predicate Distinct(names: seq<string>) { forall i, j :: 0 <= i < j < |names| ==> names[i] != names[j] }

  lemma {:induction false} ComponentsNamedOnce(s: Scan, cs: seq<Component>, x: string)
    requires Distinct(s.names)
    ensures Distinct(AddComponents(s, cs).names)
    ensures x in AddComponents(s, cs).names <==> x in s.names || exists i :: 0 <= i < |cs| && cs[i].name == x
    ensures |AddComponents(s, cs).lines| - |s.lines| == |AddComponents(s, cs).names| - |s.names|
  {
    if cs == [] {
    } else {
      ComponentsNamedOnce(s, cs[..|cs| - 1], x);
    }
  }

  predicate Offers(lib: Library, x: string) { exists i :: 0 <= i < |lib.components| && lib.components[i].name == x }

  /** A scan writes one line for each library and one for each different component name, and no other. */
  lemma {:induction false} EachNameOnce(libs: seq<Library>, x: string)
    ensures Distinct(Scanned(libs).names)
    ensures x in Scanned(libs).names <==> exists k :: 0 <= k < |libs| && Offers(libs[k], x)
    ensures |Scanned(libs).lines| == |libs| + |Scanned(libs).names|
  {
    if libs == [] {
    } else {
      var front, lib := libs[..|libs| - 1], libs[|libs| - 1];
      EachNameOnce(front, x);
      var s := Scanned(front);
      ComponentsNamedOnce(s.(lines := s.lines + [lib.path]), lib.components, x);
    }
  }

  // ---------------------------------------------------------------------------
  // What the file says
  // ---------------------------------------------------------------------------

  /** Up to the first blank. */
  function Word(s: string): (w: string)
    ensures w <= s
  {
    if s == "" || s[0] == ' ' then "" else [s[0]] + Word(s[1..])
  }

  /** A component's line, taken apart: the name between the first arrow and the second, and what colons end after that. */
  function Parsed(line: string): Component { if |line| < 5 then Component("", []) else ParsedRest(line[5..]) }

  function ParsedRest(rest: string): Component {
    var name := Word(rest);
    if |rest| < |name| + 5 then Component(name, []) else Component(name, ParsedText(rest[|name| + 5..]))
  }

  function ParsedText(text: string): seq<string> {
    var parts := Split(text);
    parts[..|parts| - 1]
  }

  predicate WellFormed(c: Component) { ' ' !in c.name && ColonFree(c.specifics) && NamesOneLine(c) }

  lemma {:induction false} WordOf(name: string, rest: string)
    requires ' ' !in name && (rest == "" || rest[0] == ' ')
    ensures Word(name + rest) == name
  {
    if name == "" {
      assert name + rest == rest;
    } else {
      assert (name + rest)[1..] == name[1..] + rest;
      WordOf(name[1..], rest);
    }
  }

  lemma {:induction false} JoinMore(segments: seq<string>, s: string)
    requires |segments| > 0
    ensures Join(segments + [s]) == Join(segments) + ":" + s
  {
    if |segments| == 1 {
      assert (segments + [s])[1..] == [s];
    } else {
      assert (segments + [s])[1..] == segments[1..] + [s];
      JoinMore(segments[1..], s);
      assert segments[0] + ":" + (Join(segments[1..]) + ":" + s) == segments[0] + ":" + Join(segments[1..]) + ":" + s;
    }
  }

  lemma {:induction false} SpecificsAreJoined(specifics: seq<string>)
    ensures SpecificsText(specifics) == Join(specifics + [""])
  {
    if specifics != [] {
      var front, last := specifics[..|specifics| - 1], specifics[|specifics| - 1];
      SpecificsAreJoined(front);
      assert specifics == front + [last];
      JoinMore(specifics, "");
      if front != [] {
        JoinMore(front, last);
        JoinMore(front, "");
      }
    }
  }

  lemma TextSays(specifics: seq<string>)
    requires ColonFree(specifics)
    ensures ParsedText(SpecificsText(specifics)) == specifics
  {
    SpecificsAreJoined(specifics);
    SplitOfJoin(specifics + [""]);
    assert (specifics + [""])[..|specifics|] == specifics;
  }

  lemma RestSays(name: string, specifics: seq<string>)
    requires ' ' !in name && ColonFree(specifics)
    ensures ParsedRest(name + if specifics != [] then ARROW + SpecificsText(specifics) else "") == Component(name, specifics)
  {
    var text := SpecificsText(specifics);
    var tail := if specifics != [] then ARROW + text else "";
    WordOf(name, tail);
    if specifics != [] {
      assert (name + tail)[|name| + 5..] == text;
      TextSays(specifics);
    }
  }

  /** The line of a component says its name and its specific names, in order, and nothing else. */
  lemma LineSays(c: Component)
    requires WellFormed(c)
    ensures Parsed(Line(c)) == c
  {
    var rest := c.name + if c.specifics != [] then ARROW + SpecificsText(c.specifics) else "";
    assert Line(c) == ARROW + rest && |ARROW| == 5;
    assert (ARROW + rest)[5..] == rest;
    RestSays(c.name, c.specifics);
  }

  /** The libraries a file names, each with the components whose lines follow it. */
  function Grouped(lines: seq<string>): seq<Library> {
    if lines == [] then []
    else
      var g, line := Grouped(lines[..|lines| - 1]), lines[|lines| - 1];
      if !Skipped(line) then g + [Library(line, [])]
      else if g == [] then []
      else
        var last := g[|g| - 1];
        g[..|g| - 1] + [Library(last.path, last.components + [Parsed(line)])]
  }

  predicate SomeOffers(libs: seq<Library>, x: string) { exists k :: 0 <= k < |libs| && Offers(libs[k], x) }

  /** The components whose name no library before and no component before them has. */
  function NewOnes(before: seq<Library>, cs: seq<Component>): seq<Component> {
    if cs == [] then []
    else
      var front, c := cs[..|cs| - 1], cs[|cs| - 1];
      NewOnes(before, front) +
      if SomeOffers(before, c.name) || exists i :: 0 <= i < |front| && front[i].name == c.name then [] else [c]
  }

  /** The libraries, each with the components that are new. */
  function Deduped(libs: seq<Library>): seq<Library> {
    if libs == [] then []
    else
      var front, lib := libs[..|libs| - 1], libs[|libs| - 1];
      Deduped(front) + [Library(lib.path, NewOnes(front, lib.components))]
  }

  lemma {:induction false} ComponentsGrouped(s: Scan, before: seq<Library>, cs: seq<Component>, g: seq<Library>, path: string)
    requires Distinct(s.names) && (forall x :: x in s.names <==> SomeOffers(before, x))
    requires Grouped(s.lines) == g + [Library(path, [])] && forall i :: 0 <= i < |cs| ==> WellFormed(cs[i])
    ensures Grouped(AddComponents(s, cs).lines) == g + [Library(path, NewOnes(before, cs))]
  {
    if cs != [] {
      var front, c := cs[..|cs| - 1], cs[|cs| - 1];
      ComponentsGrouped(s, before, front, g, path);
      ComponentsNamedOnce(s, front, c.name);
      var t, u, found := AddComponents(s, front), AddComponents(s, cs), NewOnes(before, front);
      assert c.name in t.names <==> SomeOffers(before, c.name) || exists i :: 0 <= i < |front| && front[i].name == c.name;
      if c.name !in t.names {
        assert u.lines == t.lines + [Line(c)] && u.lines[..|u.lines| - 1] == t.lines;
        LineSays(c);
        LineIsSkipped(c);
        assert (g + [Library(path, found)])[..|g|] == g;
        assert NewOnes(before, cs) == found + [c];
      } else {
        assert NewOnes(before, cs) == found;
      }
    }
  }

  lemma {:induction false} ScannedIsGrouped(libs: seq<Library>)
    requires forall k :: 0 <= k < |libs| ==> Readable(libs[k].path)
    requires forall k, i :: 0 <= k < |libs| && 0 <= i < |libs[k].components| ==> WellFormed(libs[k].components[i])
    ensures Grouped(Scanned(libs).lines) == Deduped(libs)
  {
    if libs != [] {
      var front, lib := libs[..|libs| - 1], libs[|libs| - 1];
      ScannedIsGrouped(front);
      var s := Scanned(front);
      var t := s.(lines := s.lines + [lib.path]);
      assert t.lines[..|t.lines| - 1] == s.lines;
      forall x ensures x in s.names <==> SomeOffers(front, x) { EachNameOnce(front, x); }
      EachNameOnce(front, "");
      ComponentsGrouped(t, front, lib.components, Deduped(front), lib.path);
    }
  }

  /**
   The file, taken apart again, is the scan: every library in order, each with its
   components that have not been met before, names and specific names as they were.
   */
  lemma FileSaysTheScan(libs: seq<Library>)
    requires forall k :: 0 <= k < |libs| ==> Readable(libs[k].path) && AllNamesOneLine(libs[k])
    requires forall k, i :: 0 <= k < |libs| && 0 <= i < |libs[k].components| ==> WellFormed(libs[k].components[i])
    ensures Grouped(Read(Text(Scanned(libs).lines)).lines) == Deduped(libs)
  {
    PathsAreKept(libs);
    ReadOfText(Scanned(libs).lines);
    ScannedIsGrouped(libs);
  }
}
