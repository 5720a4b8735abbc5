/**
 Bounded archive extraction (src/upgradepilot/tools/safe_archive.py): every member is checked before any is
 written, and what is written stays inside the workspace and within the limits.
 */
module Archive {
  import opened Outcomes
  import opened Sums

  type Path = seq<string>

  type Bytes = seq<bv8>

  datatype Kind = RegularFile(content: Bytes) | Directory | SymLink | HardLink | Device | BlockDevice | Fifo | OtherKind

  datatype Member = Member(name: string, kind: Kind)

  datatype Limits = Limits(maxDepth: nat, maxSingleFile: nat, maxExtracted: nat, maxFiles: nat)

  datatype Totals = Totals(bytes: nat, files: nat, depth: nat)

  datatype Fault = Link | SpecialFile | EmptyPath | AbsolutePath | Traversal | DriveLetter | NulByte | Escapes
                 | TooDeep | FileTooLarge | TooManyBytes | TooManyFiles

  datatype ExtractionError = SafetyLimit(fault: Fault) | OsError

  // ---- Member names -----------------------------------------------------------------------------------

  /** A path component as a file system keeps it. */
  predicate Component(part: string) {
    part != "" && part != "." && '/' !in part
  }

  function Emit(part: string): seq<string> {
    if part == "" || part == "." then [] else [part]
  }

  /** Split at slashes, dropping empty and `.` components. */
  function PartsFrom(name: string, current: string): (parts: Path)
    requires '/' !in current
    ensures forall i :: 0 <= i < |parts| ==> Component(parts[i])
  {
    if name == "" then Emit(current)
    else if name[0] == '/' then Emit(current) + PartsFrom(name[1..], "")
    else PartsFrom(name[1..], current + [name[0]])
  }

  function Parts(name: string): (parts: Path)
    ensures forall i :: 0 <= i < |parts| ==> Component(parts[i])
  {
    PartsFrom(name, "")
  }

  predicate IsAbsolute(name: string) {
    name != "" && name[0] == '/'
  }

  predicate IsLetter(c: char) {
    'a' <= c <= 'z' || 'A' <= c <= 'Z'
  }

  /** A drive letter and a colon; the pattern also lets one final line break through. */
  predicate IsDrive(part: string) {
    |part| >= 2 && IsLetter(part[0]) && part[1] == ':' && (|part| == 2 || (|part| == 3 && part[2] == '\n'))
  }

  function PartFault(part: string): Option<Fault> {
    if part == ".." then Some(Traversal)
    else if IsDrive(part) then Some(DriveLetter)
    else if '\0' in part then Some(NulByte)
    else None
  }

  /** The fault of the first faulty component. */
  function PartsFault(parts: Path): Option<Fault> {
    if parts == [] then None
    else if PartsFault(parts[..|parts| - 1]).Some? then PartsFault(parts[..|parts| - 1])
    else PartFault(parts[|parts| - 1])
  }

  /** Where a member goes: without the archive's top directory. */
  function Destination(parts: Path): Path {
    if |parts| > 1 then parts[1..] else parts
  }

  /** Lexical resolution: `..` removes the component before it. */
  function Resolve(path: Path): Path {
    if path == [] then []
    else
      var earlier := Resolve(path[..|path| - 1]);
      if path[|path| - 1] == ".." then (if earlier == [] then [] else earlier[..|earlier| - 1])
      else earlier + [path[|path| - 1]]
  }

  predicate Contained(workspace: Path, path: Path) {
    Resolve(workspace) <= Resolve(workspace + path)
  }

  function PathFault(workspace: Path, name: string): Option<Fault> {
    if IsAbsolute(name) then Some(AbsolutePath)
    else if Parts(name) == [] then Some(EmptyPath)
    else if PartsFault(Parts(name)).Some? then PartsFault(Parts(name))
    else if !Contained(workspace, Destination(Parts(name))) then Some(Escapes)
    else None
  }

  // ---- What is acceptable -----------------------------------------------------------------------------

  /** A component that names something below its directory on every platform. */
  predicate Plain(part: string) {
    Component(part) && part != ".." && !IsDrive(part) && '\0' !in part
  }

  ghost predicate PlainPath(path: Path) {
    path != [] && forall i :: 0 <= i < |path| ==> Plain(path[i])
  }

  function SizeOf(m: Member): nat {
    if m.kind.RegularFile? then |m.kind.content| else 0
  }

  function TotalBytes(members: seq<Member>): nat {
    if members == [] then 0 else TotalBytes(members[..|members| - 1]) + SizeOf(members[|members| - 1])
  }

  function FileCount(members: seq<Member>): nat {
    if members == [] then 0
    else FileCount(members[..|members| - 1]) + if members[|members| - 1].kind.RegularFile? then 1 else 0
  }

  function Deepest(members: seq<Member>): nat {
    if members == [] then 0
    else
      var depth := |Parts(members[|members| - 1].name)|;
      if depth > Deepest(members[..|members| - 1]) then depth else Deepest(members[..|members| - 1])
  }

  ghost predicate AcceptableMember(limits: Limits, m: Member) {
    && (m.kind.RegularFile? || m.kind.Directory? || m.kind.OtherKind?)
    && !IsAbsolute(m.name) && PlainPath(Parts(m.name)) && |Parts(m.name)| <= limits.maxDepth
    && SizeOf(m) <= limits.maxSingleFile
  }

  ghost predicate EachAcceptable(limits: Limits, members: seq<Member>) {
    forall i :: 0 <= i < |members| ==> AcceptableMember(limits, members[i])
  }

  /** The archive respects every limit, said without reference to the order of the checks. */
  ghost predicate Acceptable(limits: Limits, members: seq<Member>) {
    && EachAcceptable(limits, members)
    && TotalBytes(members) <= limits.maxExtracted && FileCount(members) <= limits.maxFiles
  }

  // ---- The first pass, check by check -----------------------------------------------------------------

  /** The first check the next member fails, given the totals so far. */
  function MemberFault(limits: Limits, workspace: Path, totals: Totals, m: Member): Option<Fault> {
    if m.kind.SymLink? || m.kind.HardLink? then Some(Link)
    else if m.kind.Device? || m.kind.BlockDevice? || m.kind.Fifo? then Some(SpecialFile)
    else if PathFault(workspace, m.name).Some? then PathFault(workspace, m.name)
    else if |Parts(m.name)| > limits.maxDepth then Some(TooDeep)
    else if !m.kind.RegularFile? then None
    else if SizeOf(m) > limits.maxSingleFile then Some(FileTooLarge)
    else if totals.bytes + SizeOf(m) > limits.maxExtracted then Some(TooManyBytes)
    else if totals.files + 1 > limits.maxFiles then Some(TooManyFiles)
    else None
  }

  function TotalsOf(members: seq<Member>): Totals {
    Totals(TotalBytes(members), FileCount(members), Deepest(members))
  }

  /** The fault of the first member that has one. */
  function FirstFault(limits: Limits, workspace: Path, members: seq<Member>): Option<Fault> {
    if members == [] then None
    else
      var earlier := members[..|members| - 1];
      if FirstFault(limits, workspace, earlier).Some? then FirstFault(limits, workspace, earlier)
      else MemberFault(limits, workspace, TotalsOf(earlier), members[|members| - 1])
  }

  lemma {:induction false} FaultlessIsPlain(parts: Path)
    requires forall i :: 0 <= i < |parts| ==> Component(parts[i])
    ensures PartsFault(parts) == None <==> forall i :: 0 <= i < |parts| ==> Plain(parts[i])
  {
    if parts != [] {
      FaultlessIsPlain(parts[..|parts| - 1]);
    }
  }

  lemma AddLast(a: Path, b: Path)
    requires b != []
    ensures a + b == a + b[..|b| - 1] + [b[|b| - 1]]
  {
  }

  lemma ResolveDown(path: Path, part: string)
    requires part != ".."
    ensures Resolve(path + [part]) == Resolve(path) + [part]
  {
    assert (path + [part])[..|path|] == path;
  }

  /** A path of plain components resolves to itself below the workspace. */
  lemma {:induction false} PlainStaysInside(workspace: Path, path: Path)
    requires forall i :: 0 <= i < |path| ==> Plain(path[i])
    ensures Resolve(workspace + path) == Resolve(workspace) + path
  {
    if path == [] {
      assert workspace + path == workspace;
    } else {
      var earlier, last := path[..|path| - 1], path[|path| - 1];
      PlainStaysInside(workspace, earlier);
      AddLast(workspace, path);
      AddLast(Resolve(workspace), path);
      ResolveDown(workspace + earlier, last);
    }
  }

  lemma PathFaultIff(workspace: Path, name: string)
    ensures PathFault(workspace, name) == None <==> !IsAbsolute(name) && PlainPath(Parts(name))
  {
    FaultlessIsPlain(Parts(name));
    if PartsFault(Parts(name)) == None {
      PlainStaysInside(workspace, Destination(Parts(name)));
    }
  }

  lemma MemberFaultIff(limits: Limits, workspace: Path, totals: Totals, m: Member)
    ensures MemberFault(limits, workspace, totals, m) == None <==>
              && AcceptableMember(limits, m)
              && (m.kind.RegularFile? ==>
                    totals.bytes + SizeOf(m) <= limits.maxExtracted && totals.files + 1 <= limits.maxFiles)
  {
    PathFaultIff(workspace, m.name);
  }

  lemma EachAcceptableNext(limits: Limits, earlier: seq<Member>, m: Member, members: seq<Member>)
    requires members == earlier + [m]
    ensures EachAcceptable(limits, members) <==> EachAcceptable(limits, earlier) && AcceptableMember(limits, m)
  {
    assert forall i :: 0 <= i < |earlier| ==> members[i] == earlier[i];
    assert members[|earlier|] == m;
  }

  lemma TotalsNext(earlier: seq<Member>, m: Member, members: seq<Member>)
    requires members == earlier + [m]
    ensures TotalBytes(members) == TotalBytes(earlier) + SizeOf(m)
    ensures FileCount(members) == FileCount(earlier) + if m.kind.RegularFile? then 1 else 0
  {
    assert members[..|members| - 1] == earlier;
  }

  lemma AcceptableNext(limits: Limits, earlier: seq<Member>, m: Member, members: seq<Member>)
    requires members == earlier + [m]
    ensures Acceptable(limits, members) <==>
              && Acceptable(limits, earlier) && AcceptableMember(limits, m)
              && (m.kind.RegularFile? ==>
                    TotalBytes(earlier) + SizeOf(m) <= limits.maxExtracted && FileCount(earlier) + 1 <= limits.maxFiles)
  {
    EachAcceptableNext(limits, earlier, m, members);
    TotalsNext(earlier, m, members);
  }

  /** The first pass accepts exactly the archives that respect every limit. */
  lemma {:induction false} ScreenedIff(limits: Limits, workspace: Path, members: seq<Member>)
    ensures FirstFault(limits, workspace, members) == None <==> Acceptable(limits, members)
  {
    if members != [] {
      var earlier, m := members[..|members| - 1], members[|members| - 1];
      ScreenedIff(limits, workspace, earlier);
      MemberFaultIff(limits, workspace, TotalsOf(earlier), m);
      AcceptableNext(limits, earlier, m, members);
    }
  }

  // ---- Names, spelled out -----------------------------------------------------------------------------

  /** A name as it is written: its components with slashes between them. */
  function Joined(parts: Path): string {
    if parts == [] then "" else if |parts| == 1 then parts[0] else parts[0] + "/" + Joined(parts[1..])
  }

  lemma {:induction false} SplitAt(a: string, b: string, current: string)
    requires '/' !in current
    ensures PartsFrom(a + "/" + b, current) == PartsFrom(a, current) + Parts(b)
    decreases |a|
  {
    var name := a + "/" + b;
    if a == "" {
      assert name[1..] == b;
    } else {
      assert name[0] == a[0] && name[1..] == a[1..] + "/" + b;
      SplitAt(a[1..], b, if a[0] == '/' then "" else current + [a[0]]);
      assert Emit(current) + (PartsFrom(a[1..], "") + Parts(b)) == Emit(current) + PartsFrom(a[1..], "") + Parts(b);
    }
  }

  lemma {:induction false} Unsplit(a: string, current: string)
    requires '/' !in a && '/' !in current
    ensures PartsFrom(a, current) == Emit(current + a)
    decreases |a|
  {
    if a == "" {
      assert current + a == current;
    } else {
      Unsplit(a[1..], current + [a[0]]);
      assert current + [a[0]] + a[1..] == current + a;
    }
  }

  /** Of what is written between slashes, the parts of a name are all but the empty and the `.` ones, in order. */
  lemma {:induction false} PartsOfJoined(written: Path)
    requires written != [] && forall i :: 0 <= i < |written| ==> '/' !in written[i]
    ensures forall part :: part in Parts(Joined(written)) <==> part in written && part != "" && part != "."
    ensures (forall i :: 0 <= i < |written| ==> Component(written[i])) ==> Parts(Joined(written)) == written
  {
    var first, rest := written[0], written[1..];
    Unsplit(first, "");
    assert "" + first == first;
    if rest == [] {
      assert written == [first];
    } else {
      SplitAt(first, Joined(rest), "");
      PartsOfJoined(rest);
      assert written == [first] + rest;
    }
  }

  /** Every name can be written so. */
  lemma {:induction false} EveryNameIsJoined(name: string) returns (written: Path)
    ensures written != [] && (forall i :: 0 <= i < |written| ==> '/' !in written[i]) && Joined(written) == name
  {
    if name == "" {
      written := [""];
    } else {
      var rest := EveryNameIsJoined(name[1..]);
      if name[0] == '/' {
        written := [""] + rest;
        assert written[1..] == rest && name == "/" + name[1..];
      } else {
        written := [[name[0]] + rest[0]] + rest[1..];
        assert written[1..] == rest[1..] && name == [name[0]] + name[1..];
      }
    }
  }

  /** Nothing that means the directory above, a drive, or the end of a C string. */
  predicate Harmless(part: string) {
    && part != ".." && '\0' !in part
    && !(|part| >= 2 && ('a' <= part[0] <= 'z' || 'A' <= part[0] <= 'Z') && part[1..] in [":", ":\n"])
  }

  /** Which names are accepted, by what is written between their slashes. */
  lemma AcceptedNameIff(workspace: Path, written: Path)
    requires written != [] && forall i :: 0 <= i < |written| ==> '/' !in written[i]
    ensures PathFault(workspace, Joined(written)) == None <==>
              && written[0] != "" && (exists part :: part in written && part != "" && part != ".")
              && forall part :: part in written ==> Harmless(part)
  {
    var name := Joined(written);
    PathFaultIff(workspace, name);
    PartsOfJoined(written);
    AbsoluteIff(written);
    forall part: string
      ensures Harmless(part) <==> part != ".." && !IsDrive(part) && '\0' !in part
    {
      HarmlessIff(part);
    }
    if PlainPath(Parts(name)) {
      assert Parts(name)[0] in Parts(name);
      forall part | part in written
        ensures Harmless(part)
      {
        assert part in Parts(name) || part == "" || part == ".";
      }
    }
    if exists part :: part in written && part != "" && part != "." {
      var part :| part in written && part != "" && part != ".";
      assert part in Parts(name);
    }
    assert forall i :: 0 <= i < |Parts(name)| ==> Parts(name)[i] in written;
  }

  lemma HarmlessIff(part: string)
    ensures Harmless(part) <==> part != ".." && !IsDrive(part) && '\0' !in part
  {
    if |part| == 2 {
      assert part[1..] == [part[1]];
    } else if |part| == 3 {
      assert part[1..] == [part[1], part[2]];
    }
  }

  lemma AbsoluteIff(written: Path)
    requires written != [] && forall i :: 0 <= i < |written| ==> '/' !in written[i]
    ensures IsAbsolute(Joined(written)) <==> written[0] == "" && |written| > 1
  {
    if written[0] != "" {
      assert Joined(written)[0] == written[0][0];
    }
  }

  /** What a fault says about the member it is reported for, and the members before it. */
  ghost predicate Explains(limits: Limits, earlier: seq<Member>, m: Member, fault: Fault) {
    match fault
    case Link => m.kind.SymLink? || m.kind.HardLink?
    case SpecialFile => m.kind.Device? || m.kind.BlockDevice? || m.kind.Fifo?
    case EmptyPath => Parts(m.name) == []
    case AbsolutePath => m.name != "" && m.name[0] == '/'
    case Traversal => ".." in Parts(m.name)
    case DriveLetter => exists part :: part in Parts(m.name) && |part| >= 2 && part[1] == ':'
    case NulByte => exists part :: part in Parts(m.name) && '\0' in part
    case Escapes => false
    case TooDeep => |Parts(m.name)| > limits.maxDepth
    case FileTooLarge => m.kind.RegularFile? && |m.kind.content| > limits.maxSingleFile
    case TooManyBytes => m.kind.RegularFile? && TotalBytes(earlier) + |m.kind.content| > limits.maxExtracted
    case TooManyFiles => m.kind.RegularFile? && FileCount(earlier) == limits.maxFiles
  }

  lemma {:induction false} PartsFaultExplained(parts: Path)
    ensures PartsFault(parts).Some? ==>
              exists i :: 0 <= i < |parts| && PartFault(parts[i]) == PartsFault(parts)
  {
    if parts != [] {
      var earlier := parts[..|parts| - 1];
      PartsFaultExplained(earlier);
      if PartsFault(earlier).Some? {
        var i :| 0 <= i < |earlier| && PartFault(earlier[i]) == PartsFault(earlier);
        assert PartFault(parts[i]) == PartsFault(parts);
      } else {
        assert PartFault(parts[|parts| - 1]) == PartsFault(parts);
      }
    }
  }

  lemma PathFaultExplained(limits: Limits, workspace: Path, earlier: seq<Member>, m: Member)
    ensures PathFault(workspace, m.name).Some? ==> Explains(limits, earlier, m, PathFault(workspace, m.name).value)
  {
    var parts := Parts(m.name);
    PathFaultIff(workspace, m.name);
    PartsFaultExplained(parts);
    if PartsFault(parts).Some? {
      var i :| 0 <= i < |parts| && PartFault(parts[i]) == PartsFault(parts);
      assert parts[i] in parts;
    } else {
      FaultlessIsPlain(parts);
    }
  }

  /** A fault is reported for a member it describes, and every member before it is in order. */
  lemma {:induction false} FaultIsExplained(limits: Limits, workspace: Path, members: seq<Member>) returns (i: nat)
    requires FirstFault(limits, workspace, members).Some?
    ensures i < |members| && Acceptable(limits, members[..i])
    ensures Explains(limits, members[..i], members[i], FirstFault(limits, workspace, members).value)
  {
    var n := |members| - 1;
    var earlier := members[..n];
    if FirstFault(limits, workspace, earlier).Some? {
      i := FaultIsExplained(limits, workspace, earlier);
      assert earlier[..i] == members[..i];
    } else {
      i := n;
      ScreenedIff(limits, workspace, earlier);
      PathFaultExplained(limits, workspace, earlier, members[n]);
    }
  }

  /** Bytes and files add up, member by member, and only regular files count. */
  lemma {:induction false} CountsAdd(a: seq<Member>, b: seq<Member>)
    ensures TotalBytes(a + b) == TotalBytes(a) + TotalBytes(b) && FileCount(a + b) == FileCount(a) + FileCount(b)
    ensures |b| == 1 ==> TotalBytes(b) == (if b[0].kind.RegularFile? then |b[0].kind.content| else 0)
                         && FileCount(b) == if b[0].kind.RegularFile? then 1 else 0
  {
    if b == [] {
      assert a + b == a;
    } else {
      assert (a + b)[..|a + b| - 1] == a + b[..|b| - 1];
      CountsAdd(a, b[..|b| - 1]);
    }
  }

  /** The depth reported is that of the deepest member. */
  lemma {:induction false} DeepestIsDepth(members: seq<Member>)
    ensures forall i :: 0 <= i < |members| ==> |Parts(members[i].name)| <= Deepest(members)
    ensures members == [] ==> Deepest(members) == 0
    ensures members != [] ==> exists i :: 0 <= i < |members| && |Parts(members[i].name)| == Deepest(members)
  {
    if members != [] {
      var n := |members| - 1;
      DeepestIsDepth(members[..n]);
      if Deepest(members) != |Parts(members[n].name)| && n > 0 {
        var i :| 0 <= i < n && |Parts(members[..n][i].name)| == Deepest(members[..n]);
        assert |Parts(members[i].name)| == Deepest(members);
      }
    }
  }

  // ---- The second pass --------------------------------------------------------------------------------

  datatype Entry = Dir | Stored(content: Bytes, readOnly: bool)

  // The contents of the workspace, by path below it; the workspace itself is the empty path.
  type Tree = map<Path, Entry>

  /** Create the missing directories of a path; None when a file is in the way. */
  function MakeDirs(t: Tree, path: Path): Option<Tree> {
    if path == [] then Some(t)
    else
      var made := MakeDirs(t, path[..|path| - 1]);
      if made.None? then None
      else if path !in made.value then Some(made.value[path := Dir])
      else if made.value[path].Dir? then made
      else None
  }

  /** Write a file; a read-only file of that name can only be replaced by a privileged process. */
  function WriteFile(t: Tree, path: Path, content: Bytes, privileged: bool): Option<Tree>
    requires path != []
  {
    var made := MakeDirs(t, path[..|path| - 1]);
    if made.None? then None
    else if path in made.value && (made.value[path].Dir? || (made.value[path].readOnly && !privileged)) then None
    else Some(made.value[path := Stored(content, true)])
  }

  function PlaceOne(t: Tree, m: Member, privileged: bool): Option<Tree> {
    var path := Destination(Parts(m.name));
    if path == [] then Some(t)
    else match m.kind
      case Directory => MakeDirs(t, path)
      case RegularFile(content) => WriteFile(t, path, content, privileged)
      case _ => Some(t)
  }

  function PlaceAll(t: Tree, members: seq<Member>, privileged: bool): Option<Tree> {
    if members == [] then Some(t)
    else
      var placed := PlaceAll(t, members[..|members| - 1], privileged);
      if placed.None? then None else PlaceOne(placed.value, members[|members| - 1], privileged)
  }

  /** Everything before member `n` is placed, and member `n` is refused. */
  ghost predicate StopsAt(t: Tree, members: seq<Member>, n: nat, privileged: bool, reached: Tree) {
    && n < |members|
    && PlaceAll(t, members[..n], privileged) == Some(reached) && PlaceAll(t, members[..n + 1], privileged) == None
  }

  // ---- Extraction -------------------------------------------------------------------------------------

  class Workspace {
    const root: Path
    const limits: Limits
    var tree: Tree

    constructor (root: Path, limits: Limits, tree: Tree)
      ensures this.root == root && this.limits == limits && this.tree == tree
    {
      this.root, this.limits, this.tree := root, limits, tree;
    }

    /** First pass: check every member, count as it goes. */
    method Screen(members: seq<Member>) returns (r: Result<Totals, Fault>)
      ensures r == if FirstFault(limits, root, members).Some? then Err(FirstFault(limits, root, members).value)
                   else Ok(TotalsOf(members))
    {
      var bytes: nat, files: nat, depth: nat := 0, 0, 0;
      for i := 0 to |members|
        invariant FirstFault(limits, root, members[..i]) == None
        invariant Totals(bytes, files, depth) == TotalsOf(members[..i])
      {
        var m := members[i];
        FaultNext(limits, root, members, i);
        if m.kind.SymLink? || m.kind.HardLink? {
          return Err(Link);
        }
        if m.kind.Device? || m.kind.BlockDevice? || m.kind.Fifo? {
          return Err(SpecialFile);
        }
        var unsafe := PathFault(root, m.name);
        if unsafe.Some? {
          return Err(unsafe.value);
        }
        var d := |Parts(m.name)|;
        if d > limits.maxDepth {
          return Err(TooDeep);
        }
        depth := if d > depth then d else depth;
        if m.kind.RegularFile? {
          if SizeOf(m) > limits.maxSingleFile {
            return Err(FileTooLarge);
          }
          bytes := bytes + SizeOf(m);
          if bytes > limits.maxExtracted {
            return Err(TooManyBytes);
          }
          files := files + 1;
          if files > limits.maxFiles {
            return Err(TooManyFiles);
          }
        }
      }
      assert members[..|members|] == members;
      return Ok(Totals(bytes, files, depth));
    }

    /** Second pass: write the members in order; the tree keeps what was written when one fails. */
    method Write(members: seq<Member>, privileged: bool) returns (r: Result<(), ExtractionError>)
      requires forall i :: 0 <= i < |members| ==> AcceptableMember(limits, members[i])
      modifies `tree
      ensures r == if PlaceAll(old(tree), members, privileged).Some? then Ok(()) else Err(OsError)
      ensures r.Ok? ==> Some(tree) == PlaceAll(old(tree), members, privileged)
      ensures r.Err? ==> exists n :: StopsAt(old(tree), members, n, privileged, tree)
    {
      for i := 0 to |members|
        invariant Some(tree) == PlaceAll(old(tree), members[..i], privileged)
      {
        PlaceNext(old(tree), members, i, privileged);
        var parts := Parts(members[i].name);
        var path := Destination(parts);
        if path != [] {
          if !Contained(root, path) {
            PlainStaysInside(root, path);
            return Err(SafetyLimit(Escapes));
          }
          var placed := PlaceOne(tree, members[i], privileged);
          if placed.None? {
            PlaceFails(old(tree), members, i, privileged);
            assert StopsAt(old(tree), members, i, privileged, tree);
            return Err(OsError);
          }
          tree := placed.value;
        }
      }
      assert members[..|members|] == members;
      return Ok(());
    }

    /**
     A limit that is exceeded anywhere in the archive leaves the workspace untouched; an archive within
     the limits is written in full, or fails on the file system.
     */
    method ExtractSafely(members: seq<Member>, privileged: bool) returns (r: Result<Totals, ExtractionError>)
      modifies `tree
      ensures !Acceptable(limits, members) <==> r.Err? && r.error.SafetyLimit?
      ensures !Acceptable(limits, members) ==> tree == old(tree)
      ensures r.Ok? ==> r.value == TotalsOf(members) && Some(tree) == PlaceAll(old(tree), members, privileged)
      ensures r.Ok? ==>
                && ChangesInside(old(tree), tree)
                && TreeBytes(tree) <= TreeBytes(old(tree)) + r.value.bytes && r.value.bytes <= limits.maxExtracted
                && TreeFiles(tree) <= TreeFiles(old(tree)) + r.value.files && r.value.files <= limits.maxFiles
      ensures r == Err(OsError) ==>
                && PlaceAll(old(tree), members, privileged) == None
                && exists n :: StopsAt(old(tree), members, n, privileged, tree)
    {
      ScreenedIff(limits, root, members);
      var screened := Screen(members);
      if screened.Err? {
        return Err(SafetyLimit(screened.error));
      }
      var written := Write(members, privileged);
      if written.Err? {
        return Err(written.error);
      }
      WritesStayInside(old(tree), members, privileged);
      GrowthIsCounted(old(tree), members, privileged);
      return Ok(screened.value);
    }

    /** Extraction as the downloader calls it: whatever goes wrong, the workspace is removed. */
    method ExtractOrRemove(members: seq<Member>, privileged: bool) returns (r: Result<Totals, ExtractionError>)
      modifies `tree
      ensures r.Ok? <==> Acceptable(limits, members) && PlaceAll(old(tree), members, privileged).Some?
      ensures if r.Ok? then Some(tree) == PlaceAll(old(tree), members, privileged) else tree == map[]
    {
      r := ExtractSafely(members, privileged);
      if r.Err? {
        tree := map[];
      }
    }
  }

  lemma FaultNext(limits: Limits, root: Path, members: seq<Member>, i: nat)
    requires i < |members| && FirstFault(limits, root, members[..i]) == None
    ensures FirstFault(limits, root, members[..i + 1]) == MemberFault(limits, root, TotalsOf(members[..i]), members[i])
    ensures FirstFault(limits, root, members[..i + 1]).Some? ==>
              FirstFault(limits, root, members) == FirstFault(limits, root, members[..i + 1])
    ensures TotalsOf(members[..i + 1]) ==
              var t, m := TotalsOf(members[..i]), members[i];
              Totals(t.bytes + SizeOf(m), t.files + if m.kind.RegularFile? then 1 else 0,
                     if |Parts(m.name)| > t.depth then |Parts(m.name)| else t.depth)
  {
    assert members[..i + 1][..i] == members[..i];
    if FirstFault(limits, root, members[..i + 1]).Some? {
      FaultStays(limits, root, members, i + 1);
    }
  }

  lemma {:induction false} FaultStays(limits: Limits, root: Path, members: seq<Member>, i: nat)
    requires i <= |members| && FirstFault(limits, root, members[..i]).Some?
    ensures FirstFault(limits, root, members) == FirstFault(limits, root, members[..i])
    decreases |members|
  {
    if i == |members| {
      assert members[..i] == members;
    } else {
      var earlier := members[..|members| - 1];
      assert earlier[..i] == members[..i];
      FaultStays(limits, root, earlier, i);
    }
  }

  lemma PlaceNext(t: Tree, members: seq<Member>, i: nat, privileged: bool)
    requires i < |members| && PlaceAll(t, members[..i], privileged).Some?
    ensures PlaceAll(t, members[..i + 1], privileged) == PlaceOne(PlaceAll(t, members[..i], privileged).value, members[i], privileged)
  {
    assert members[..i + 1][..i] == members[..i];
  }

  lemma {:induction false} PlaceFails(t: Tree, members: seq<Member>, i: nat, privileged: bool)
    requires i < |members| && PlaceAll(t, members[..i + 1], privileged) == None
    ensures PlaceAll(t, members, privileged) == None
    decreases |members|
  {
    if i + 1 == |members| {
      assert members[..i + 1] == members;
    } else {
      var earlier := members[..|members| - 1];
      assert earlier[..i + 1] == members[..i + 1];
      PlaceFails(t, earlier, i, privileged);
    }
  }

  // ---- What extraction leaves in the workspace --------------------------------------------------------

  /** Everything that is new or changed lies strictly below the workspace. */
  ghost predicate ChangesInside(t: Tree, u: Tree) {
    && t.Keys <= u.Keys
    && forall p :: p in u && (p !in t || u[p] != t[p]) ==> PlainPath(p)
  }

  lemma {:induction false} DirsInside(t: Tree, path: Path)
    requires MakeDirs(t, path).Some? && forall i :: 0 <= i < |path| ==> Plain(path[i])
    ensures ChangesInside(t, MakeDirs(t, path).value)
  {
    if path != [] {
      DirsInside(t, path[..|path| - 1]);
    }
  }

  lemma OneInside(t: Tree, m: Member, privileged: bool)
    requires PlainPath(Parts(m.name)) && PlaceOne(t, m, privileged).Some?
    ensures ChangesInside(t, PlaceOne(t, m, privileged).value)
  {
    var path := Destination(Parts(m.name));
    if m.kind.Directory? {
      DirsInside(t, path);
    } else if m.kind.RegularFile? {
      DirsInside(t, path[..|path| - 1]);
    }
  }

  /** Every path written lies strictly inside the workspace, lexically and after resolution. */
  lemma {:induction false} WritesStayInside(t: Tree, members: seq<Member>, privileged: bool)
    requires forall i :: 0 <= i < |members| ==> PlainPath(Parts(members[i].name))
    requires PlaceAll(t, members, privileged).Some?
    ensures ChangesInside(t, PlaceAll(t, members, privileged).value)
  {
    if members != [] {
      var n := |members| - 1;
      WritesStayInside(t, members[..n], privileged);
      OneInside(PlaceAll(t, members[..n], privileged).value, members[n], privileged);
    }
  }

  // ---- Sizes ------------------------------------------------------------------------------------------

  ghost function Sizes(t: Tree): map<Path, nat> {
    map p | p in t :: if t[p].Stored? then |t[p].content| else 0
  }

  ghost function Ones(t: Tree): map<Path, nat> {
    map p | p in t :: if t[p].Stored? then 1 else 0
  }

  ghost function TreeBytes(t: Tree): nat {
    Sum(Sizes(t))
  }

  ghost function TreeFiles(t: Tree): nat {
    Sum(Ones(t))
  }

  lemma PutBytes(t: Tree, p: Path, e: Entry)
    ensures TreeBytes(t[p := e]) <= TreeBytes(t) + (if e.Stored? then |e.content| else 0)
    ensures TreeFiles(t[p := e]) <= TreeFiles(t) + (if e.Stored? then 1 else 0)
  {
    PutSizes(t, p, e);
    SumPut(Sizes(t), p, if e.Stored? then |e.content| else 0);
    SumPut(Ones(t), p, if e.Stored? then 1 else 0);
  }

  lemma PutSizes(t: Tree, p: Path, e: Entry)
    ensures Sizes(t[p := e]) == Sizes(t)[p := if e.Stored? then |e.content| else 0]
    ensures Ones(t[p := e]) == Ones(t)[p := if e.Stored? then 1 else 0]
  {
  }

  lemma {:induction false} DirsAddNothing(t: Tree, path: Path)
    requires MakeDirs(t, path).Some?
    ensures TreeBytes(MakeDirs(t, path).value) <= TreeBytes(t) && TreeFiles(MakeDirs(t, path).value) <= TreeFiles(t)
  {
    if path != [] {
      DirsAddNothing(t, path[..|path| - 1]);
      PutBytes(MakeDirs(t, path[..|path| - 1]).value, path, Dir);
    }
  }

  lemma OneAdds(t: Tree, m: Member, privileged: bool)
    requires PlaceOne(t, m, privileged).Some?
    ensures TreeBytes(PlaceOne(t, m, privileged).value) <= TreeBytes(t) + SizeOf(m)
    ensures TreeFiles(PlaceOne(t, m, privileged).value) <= TreeFiles(t) + if m.kind.RegularFile? then 1 else 0
  {
    var path := Destination(Parts(m.name));
    if path != [] && m.kind.Directory? {
      DirsAddNothing(t, path);
    } else if path != [] && m.kind.RegularFile? {
      DirsAddNothing(t, path[..|path| - 1]);
      PutBytes(MakeDirs(t, path[..|path| - 1]).value, path, Stored(m.kind.content, true));
    }
  }

  /**
   The workspace grows by at most the bytes and the files counted in the first pass, even when members
   collide once the top directory is stripped.
   */
  lemma {:induction false} GrowthIsCounted(t: Tree, members: seq<Member>, privileged: bool)
    requires PlaceAll(t, members, privileged).Some?
    ensures TreeBytes(PlaceAll(t, members, privileged).value) <= TreeBytes(t) + TotalBytes(members)
    ensures TreeFiles(PlaceAll(t, members, privileged).value) <= TreeFiles(t) + FileCount(members)
  {
    if members != [] {
      var n := |members| - 1;
      GrowthIsCounted(t, members[..n], privileged);
      OneAdds(PlaceAll(t, members[..n], privileged).value, members[n], privileged);
    }
  }

  // ---- Contents ---------------------------------------------------------------------------------------

  function ContentAt(t: Tree, p: Path): Option<Bytes> {
    if p in t && t[p].Stored? then Some(t[p].content) else None
  }

  /** The content the archive gives a path: that of the last file that goes there. */
  function LastContent(members: seq<Member>, p: Path): Option<Bytes> {
    if members == [] then None
    else
      var m := members[|members| - 1];
      if m.kind.RegularFile? && Destination(Parts(m.name)) == p then Some(m.kind.content)
      else LastContent(members[..|members| - 1], p)
  }

  lemma {:induction false} DirsKeepFiles(t: Tree, path: Path, p: Path)
    requires MakeDirs(t, path).Some?
    ensures ContentAt(MakeDirs(t, path).value, p) == ContentAt(t, p)
  {
    if path != [] {
      DirsKeepFiles(t, path[..|path| - 1], p);
    }
  }

  lemma OneWrites(t: Tree, m: Member, privileged: bool, p: Path)
    requires p != [] && PlaceOne(t, m, privileged).Some?
    ensures ContentAt(PlaceOne(t, m, privileged).value, p) ==
              if m.kind.RegularFile? && Destination(Parts(m.name)) == p then Some(m.kind.content) else ContentAt(t, p)
  {
    var path := Destination(Parts(m.name));
    if path != [] && m.kind.Directory? {
      DirsKeepFiles(t, path, p);
    } else if path != [] && m.kind.RegularFile? {
      DirsKeepFiles(t, path[..|path| - 1], p);
    }
  }

  /** After extraction every path holds what the archive's last file for it says, or what it held before. */
  lemma {:induction false} LastFileWins(t: Tree, members: seq<Member>, privileged: bool, p: Path)
    requires p != [] && PlaceAll(t, members, privileged).Some?
    ensures ContentAt(PlaceAll(t, members, privileged).value, p) ==
              if LastContent(members, p).Some? then LastContent(members, p) else ContentAt(t, p)
  {
    if members != [] {
      var n := |members| - 1;
      LastFileWins(t, members[..n], privileged, p);
      OneWrites(PlaceAll(t, members[..n], privileged).value, members[n], privileged, p);
    }
  }

  // ---- When writing succeeds ----------------------------------------------------------------------------

  ghost predicate Prefix(p: Path, path: Path) {
    p <= path
  }

  lemma PrefixOfParent(p: Path, path: Path)
    requires path != []
    ensures Prefix(p, path) <==> Prefix(p, path[..|path| - 1]) || p == path
    ensures Prefix(p, path[..|path| - 1]) ==> p != path
  {
    if p <= path && p != path {
      assert |p| < |path|;
    }
  }

  /** The member makes the path a directory. */
  ghost predicate Makes(m: Member, p: Path) {
    var path := Destination(Parts(m.name));
    p != [] && Prefix(p, path) && (m.kind.Directory? || (m.kind.RegularFile? && p != path))
  }

  /** The member stores a file at the path. */
  ghost predicate Puts(m: Member, p: Path) {
    p != [] && m.kind.RegularFile? && Destination(Parts(m.name)) == p
  }

  /**
   Two members need the same path, at least one of them for a file; two files for one path clash only without
   privileges, since files are written read-only.
   */
  ghost predicate ClashAt(a: Member, b: Member, p: Path, privileged: bool) {
    || (Puts(a, p) && Makes(b, p))
    || (Makes(a, p) && Puts(b, p))
    || (Puts(a, p) && Puts(b, p) && !privileged)
  }

  ghost predicate NoClash(members: seq<Member>, privileged: bool) {
    forall i, j, p :: 0 <= i < j < |members| ==> !ClashAt(members[i], members[j], p, privileged)
  }

  ghost predicate StoredAt(t: Tree, p: Path) {
    p in t && t[p].Stored?
  }

  lemma {:induction false} MakeDirsIff(t: Tree, path: Path)
    ensures MakeDirs(t, path).Some? <==> forall p :: p != [] && Prefix(p, path) ==> !StoredAt(t, p)
    ensures MakeDirs(t, path).Some? ==>
              var u := MakeDirs(t, path).value;
              forall p :: (p in u <==> p in t || (p != [] && Prefix(p, path))) && (p in u ==> u[p] == if p in t then t[p] else Dir)
  {
    if path != [] {
      var parent := path[..|path| - 1];
      MakeDirsIff(t, parent);
      forall p
        ensures Prefix(p, path) <==> Prefix(p, parent) || p == path
        ensures Prefix(p, parent) ==> p != path
      {
        PrefixOfParent(p, path);
      }
      assert Prefix(path, path);
      if MakeDirs(t, parent).Some? {
        assert path in MakeDirs(t, parent).value <==> path in t;
      } else {
        var p :| p != [] && Prefix(p, parent) && StoredAt(t, p);
        assert Prefix(p, path);
      }
    }
  }

  /** What the tree holds at the path keeps the member from using it. */
  ghost predicate Blocked(t: Tree, m: Member, p: Path, privileged: bool) {
    || (Makes(m, p) && StoredAt(t, p))
    || (Puts(m, p) && p in t && (t[p].Dir? || (t[p].readOnly && !privileged)))
  }

  /** Where the member leaves a read-only file, a directory, or what there was. */
  ghost predicate PlacedAt(t: Tree, u: Tree, m: Member, p: Path) {
    && (p in u <==> p in t || Puts(m, p) || Makes(m, p))
    && (p in u ==>
          if Puts(m, p) then u[p].Stored? && u[p].readOnly
          else if p in t then u[p] == t[p] && (Makes(m, p) ==> u[p].Dir?)
          else u[p].Dir?)
  }

  /** A member can be placed exactly when nothing it needs is taken. */
  lemma PlaceOneIff(t: Tree, m: Member, privileged: bool)
    ensures PlaceOne(t, m, privileged).Some? <==> forall p :: !Blocked(t, m, p, privileged)
    ensures PlaceOne(t, m, privileged).Some? ==> forall p :: PlacedAt(t, PlaceOne(t, m, privileged).value, m, p)
  {
    var path := Destination(Parts(m.name));
    if path != [] && m.kind.Directory? {
      MakeDirsIff(t, path);
      assert forall p :: Blocked(t, m, p, privileged) <==> p != [] && Prefix(p, path) && StoredAt(t, p);
    } else if path != [] && m.kind.RegularFile? {
      PlaceFileIff(t, m, path, privileged);
    } else {
      assert forall p :: !Blocked(t, m, p, privileged);
    }
  }

  lemma PlaceFileIff(t: Tree, m: Member, path: Path, privileged: bool)
    requires m.kind.RegularFile? && path == Destination(Parts(m.name)) && path != []
    ensures PlaceOne(t, m, privileged).Some? <==> forall p :: !Blocked(t, m, p, privileged)
    ensures PlaceOne(t, m, privileged).Some? ==> forall p :: PlacedAt(t, PlaceOne(t, m, privileged).value, m, p)
  {
    var parent := path[..|path| - 1];
    MakeDirsIff(t, parent);
    forall p
      ensures Prefix(p, path) <==> Prefix(p, parent) || p == path
      ensures Prefix(p, parent) ==> p != path
    {
      PrefixOfParent(p, path);
    }
    assert Prefix(path, path);
    assert forall p :: Makes(m, p) <==> p != [] && Prefix(p, parent);
    if MakeDirs(t, parent).Some? {
      var made := MakeDirs(t, parent).value;
      assert path in made <==> path in t;
      assert path in t ==> made[path] == t[path];
      assert PlaceOne(t, m, privileged).Some? <==> !Blocked(t, m, path, privileged);
    } else {
      var p :| p != [] && Prefix(p, parent) && StoredAt(t, p);
      assert Blocked(t, m, p, privileged);
    }
  }

  ghost predicate SomePuts(members: seq<Member>, p: Path) {
    exists i :: 0 <= i < |members| && Puts(members[i], p)
  }

  ghost predicate SomeMakes(members: seq<Member>, p: Path) {
    exists i :: 0 <= i < |members| && Makes(members[i], p)
  }

  lemma OneMore(members: seq<Member>, m: Member, p: Path)
    ensures SomePuts(members + [m], p) <==> SomePuts(members, p) || Puts(m, p)
    ensures SomeMakes(members + [m], p) <==> SomeMakes(members, p) || Makes(m, p)
  {
    var all := members + [m];
    assert forall i :: 0 <= i < |members| ==> all[i] == members[i];
    assert all[|members|] == m;
  }

  /** The path holds what the members put or make there, and otherwise what it held before. */
  ghost predicate HoldsAt(t: Tree, u: Tree, members: seq<Member>, p: Path) {
    && (p in u <==> p in t || SomePuts(members, p) || SomeMakes(members, p))
    && (p in u ==>
          if SomePuts(members, p) then u[p].Stored? && u[p].readOnly && !SomeMakes(members, p) && (p in t ==> t[p].Stored?)
          else if p in t then u[p] == t[p] && (SomeMakes(members, p) ==> u[p].Dir?)
          else u[p].Dir?)
  }

  ghost predicate Describes(t: Tree, u: Tree, members: seq<Member>) {
    forall p :: HoldsAt(t, u, members, p)
  }

  ghost predicate ClashesWith(members: seq<Member>, m: Member, p: Path, privileged: bool) {
    || (SomePuts(members, p) && Makes(m, p))
    || (SomeMakes(members, p) && Puts(m, p))
    || (SomePuts(members, p) && Puts(m, p) && !privileged)
  }

  /** In the tree the members leave, a member is blocked by the tree there was or by one of them. */
  lemma BlockedBy(t: Tree, u: Tree, members: seq<Member>, m: Member, p: Path, privileged: bool)
    requires HoldsAt(t, u, members, p)
    ensures Blocked(u, m, p, privileged) <==> Blocked(t, m, p, privileged) || ClashesWith(members, m, p, privileged)
  {
  }

  lemma HoldsNext(t: Tree, u: Tree, w: Tree, members: seq<Member>, m: Member, p: Path, privileged: bool)
    requires HoldsAt(t, u, members, p) && PlacedAt(u, w, m, p) && !Blocked(u, m, p, privileged)
    ensures HoldsAt(t, w, members + [m], p)
  {
    OneMore(members, m, p);
  }

  lemma DescribesNext(t: Tree, u: Tree, members: seq<Member>, m: Member, privileged: bool)
    requires Describes(t, u, members)
    ensures PlaceOne(u, m, privileged).Some? <==>
              forall p :: !Blocked(t, m, p, privileged) && !ClashesWith(members, m, p, privileged)
    ensures PlaceOne(u, m, privileged).Some? ==> Describes(t, PlaceOne(u, m, privileged).value, members + [m])
  {
    PlaceOneIff(u, m, privileged);
    forall p
      ensures Blocked(u, m, p, privileged) <==> Blocked(t, m, p, privileged) || ClashesWith(members, m, p, privileged)
    {
      BlockedBy(t, u, members, m, p, privileged);
    }
    if PlaceOne(u, m, privileged).Some? {
      var w := PlaceOne(u, m, privileged).value;
      forall p
        ensures HoldsAt(t, w, members + [m], p)
      {
        assert PlacedAt(u, w, m, p) && !Blocked(u, m, p, privileged);
        HoldsNext(t, u, w, members, m, p, privileged);
      }
    }
  }

  lemma NoClashNext(members: seq<Member>, m: Member, privileged: bool)
    ensures NoClash(members + [m], privileged) <==>
              NoClash(members, privileged) && forall p :: !ClashesWith(members, m, p, privileged)
  {
    var all := members + [m];
    assert forall i :: 0 <= i < |members| ==> all[i] == members[i];
    assert all[|members|] == m;
    if NoClash(all, privileged) {
      forall i, j, p | 0 <= i < j < |members|
        ensures !ClashAt(members[i], members[j], p, privileged)
      {
        assert !ClashAt(all[i], all[j], p, privileged);
      }
      forall p
        ensures !ClashesWith(members, m, p, privileged)
      {
        assert forall i :: 0 <= i < |members| ==> !ClashAt(all[i], all[|members|], p, privileged);
      }
    }
    if NoClash(members, privileged) && forall p :: !ClashesWith(members, m, p, privileged) {
      forall i, j, p | 0 <= i < j < |all|
        ensures !ClashAt(all[i], all[j], p, privileged)
      {
        assert !ClashesWith(members, m, p, privileged);
        assert j < |members| ==> !ClashAt(members[i], members[j], p, privileged);
      }
    }
  }

  /** No member is kept from a path it needs by what the workspace holds to begin with. */
  ghost predicate NoneBlocked(t: Tree, members: seq<Member>, privileged: bool) {
    forall i, p :: 0 <= i < |members| ==> !Blocked(t, members[i], p, privileged)
  }

  lemma NoneBlockedNext(t: Tree, members: seq<Member>, m: Member, privileged: bool)
    ensures NoneBlocked(t, members + [m], privileged) <==>
              NoneBlocked(t, members, privileged) && forall p :: !Blocked(t, m, p, privileged)
  {
    var all := members + [m];
    assert forall i :: 0 <= i < |members| ==> all[i] == members[i];
    assert all[|members|] == m;
  }

  /**
   Into any workspace, and with or without privileges, an archive is written exactly when no two of its members
   clash and no member is blocked by what was there; then every path holds what the members put or make there,
   and otherwise what it held before.
   */
  lemma {:induction false} PlacedIffNoClash(t: Tree, members: seq<Member>, privileged: bool)
    ensures PlaceAll(t, members, privileged).Some? <==> NoClash(members, privileged) && NoneBlocked(t, members, privileged)
    ensures PlaceAll(t, members, privileged).Some? ==> Describes(t, PlaceAll(t, members, privileged).value, members)
  {
    if members != [] {
      var n := |members| - 1;
      PlacedIffNoClash(t, members[..n], privileged);
      assert members == members[..n] + [members[n]];
      if PlaceAll(t, members[..n], privileged).Some? {
        DescribesNext(t, PlaceAll(t, members[..n], privileged).value, members[..n], members[n], privileged);
      }
      NoClashNext(members[..n], members[n], privileged);
      NoneBlockedNext(t, members[..n], members[n], privileged);
    }
  }

  /** An empty workspace blocks nothing, so that there the archive alone decides. */
  lemma EmptyBlocksNothing(members: seq<Member>, privileged: bool)
    ensures PlaceAll(map[], members, privileged).Some? <==> NoClash(members, privileged)
  {
    PlacedIffNoClash(map[], members, privileged);
  }

  // ---- Where a member lands -----------------------------------------------------------------------------

  /** The file is at this path, its directories are above it, and there is nothing else. */
  ghost predicate HoldsOnly(t: Tree, p: Path, content: Bytes) {
    && (forall q :: q in t <==> q != [] && q <= p)
    && p in t && t[p] == Stored(content, true)
    && forall q :: q in t && q != p ==> t[q] == Dir
  }

  /** Only these directories are there. */
  ghost predicate HoldsDirs(t: Tree, p: Path) {
    forall q :: (q in t <==> q != [] && q <= p) && (q in t ==> t[q] == Dir)
  }

  lemma OnlyMember(t: Tree, m: Member, privileged: bool)
    ensures PlaceAll(t, [m], privileged) == PlaceOne(t, m, privileged)
  {
    assert [m][..0] == [];
  }

  lemma PlacedInEmpty(m: Member, p: Path, privileged: bool)
    requires Destination(Parts(m.name)) == p != []
    ensures m.kind.RegularFile? ==>
              PlaceOne(map[], m, privileged).Some? && HoldsOnly(PlaceOne(map[], m, privileged).value, p, m.kind.content)
    ensures m.kind.Directory? ==>
              PlaceOne(map[], m, privileged).Some? && HoldsDirs(PlaceOne(map[], m, privileged).value, p)
  {
    if m.kind.Directory? {
      MakeDirsIff(map[], p);
    } else if m.kind.RegularFile? {
      var parent := p[..|p| - 1];
      MakeDirsIff(map[], parent);
      forall q
        ensures Prefix(q, p) <==> Prefix(q, parent) || q == p
        ensures Prefix(q, parent) ==> q != p
      {
        PrefixOfParent(q, p);
      }
    }
  }

  /**
   Where a member lands. A file written `top/p` is stored at `p`, below the archive's top directory and not at
   it, with a directory at every path above it and nothing else; a directory likewise.
   */
  lemma LandsBelowTop(top: string, p: Path, content: Bytes, privileged: bool)
    requires Plain(top) && PlainPath(p)
    ensures var t := PlaceAll(map[], [Member(Joined([top] + p), RegularFile(content))], privileged);
            t.Some? && HoldsOnly(t.value, p, content)
    ensures var t := PlaceAll(map[], [Member(Joined([top] + p), Directory)], privileged);
            t.Some? && HoldsDirs(t.value, p)
  {
    var name := Joined([top] + p);
    PartsOfJoined([top] + p);
    assert ([top] + p)[1..] == p;
    LandsAt(name, p, content, privileged);
  }

  /** A name of one component is all there is, and is kept. */
  lemma LandsAtTop(top: string, content: Bytes, privileged: bool)
    requires Plain(top)
    ensures var t := PlaceAll(map[], [Member(top, RegularFile(content))], privileged);
            t.Some? && HoldsOnly(t.value, [top], content)
    ensures var t := PlaceAll(map[], [Member(top, Directory)], privileged);
            t.Some? && HoldsDirs(t.value, [top])
  {
    PartsOfJoined([top]);
    LandsAt(top, [top], content, privileged);
  }

  lemma LandsAt(name: string, p: Path, content: Bytes, privileged: bool)
    requires Destination(Parts(name)) == p != []
    ensures var t := PlaceAll(map[], [Member(name, RegularFile(content))], privileged);
            t.Some? && HoldsOnly(t.value, p, content)
    ensures var t := PlaceAll(map[], [Member(name, Directory)], privileged);
            t.Some? && HoldsDirs(t.value, p)
  {
    var file, directory := Member(name, RegularFile(content)), Member(name, Directory);
    OnlyMember(map[], file, privileged);
    OnlyMember(map[], directory, privileged);
    PlacedInEmpty(file, p, privileged);
    PlacedInEmpty(directory, p, privileged);
  }
}
