/** Planning an export's files before anything is written (src/export_policy.rs,
    `preview_export_paths`).  Paths are byte strings. */
module ExportPreview {
  import opened Base
  import opened WavParts
  import opened P = ExportPattern

  // ---- paths ----

  /** Appending a path to a path. */
  function Join(a: string, b: string): string {
    if b != "" && b[0] == '/' then b
    else if a != "" && a[|a| - 1] != '/' then a + "/" + b
    else a + b
  }

  /** `prefix` is `path` or one of its ancestors. */
  predicate Under(path: string, prefix: string) {
    path == prefix || (if prefix != "" && prefix[|prefix| - 1] == '/' then prefix <= path else prefix + "/" <= path)
  }

  predicate HasDoubleSlash(s: string) { exists i :: 0 < i < |s| && s[i - 1] == '/' && s[i] == '/' }

  /** The components between slashes. */
  function Components(s: string): (r: seq<string>)
    ensures r != []
  {
    if s == "" then [""]
    else
      var rest := Components(s[1..]);
      if s[0] == '/' then [""] + rest else [[s[0]] + rest[0]] + rest[1..]
  }

  predicate ValidOutputDir(s: string) {
    && s != "" && s[0] == '/' && '\0' !in s && !HasDoubleSlash(s)
    && (|s| > 1 ==> s[|s| - 1] != '/')
    && "." !in Components(s) && ".." !in Components(s)
  }

  predicate ValidDirectory(s: string) {
    s == "" ||
    (&& '\0' !in s && '\\' !in s && s[0] != '/' && s[|s| - 1] != '/' && !HasDoubleSlash(s)
     && "" !in Components(s) && "." !in Components(s) && ".." !in Components(s))
  }

  predicate ValidComponent(s: string) {
    s != "" && s != "." && s != ".." && '/' !in s && '\\' !in s && '\0' !in s
  }

  function FinalPath(root: string, directory: string, filename: string): string {
    Join(Join(root, directory), filename)
  }

  lemma JoinedUnder(root: string, directory: string, filename: string)
    requires root != "" && root[0] == '/' && (|root| > 1 ==> root[|root| - 1] != '/')
    requires directory != "" ==> directory[0] != '/' && directory[|directory| - 1] != '/'
    requires filename != "" && filename[0] != '/'
    ensures Under(FinalPath(root, directory, filename), root)
    ensures |FinalPath(root, directory, filename)|
            == |root| + (if root == "/" then 0 else 1) + |directory| + (if directory == "" then 0 else 1) + |filename|
  {
    var base := Join(root, directory);
    var slash := if root[|root| - 1] == '/' then "" else "/";
    assert root[|root| - 1] == '/' <==> root == "/";
    assert base == root + slash + directory;
    if directory == "" {
      assert base == root + slash && base[|base| - 1] == '/';
      assert FinalPath(root, directory, filename) == root + slash + filename;
    } else {
      assert base[|base| - 1] == directory[|directory| - 1];
      assert FinalPath(root, directory, filename) == root + slash + (directory + "/" + filename);
    }
    assert root + slash <= FinalPath(root, directory, filename);
  }

  // ---- the plan ----

  datatype Policy = Policy(outputDir: string, directory: seq<Segment>, filename: seq<Segment>, channels: seq<string>)

  datatype Context = Context(
    profile: string,
    timestamp: string,
    sampleRate: nat,
    start: u64,
    end: u64,
    split: u64,
    maximumPath: u64)

  datatype Output = Output(
    channel: nat,
    part: nat,
    partCount: nat,
    start: nat,
    end: nat,
    directory: string,
    filename: string,
    path: string)

  datatype Error =
    | BadOutputDir
    | RangeReversed
    | NoPathBytes
    | BadValue
    | Splitting(split: WavParts.Error)
    | BadChannelIndex
    | BadChannelName
    | CapacityOverflow
    | CapacityExceeded
    | Rendering(render: RenderError)
    | BadDirectory
    | BadFilename
    | EscapesOutputDir
    | PathTooLong
    | DuplicatePath
    | PathConflict

  function Suffix(part: nat, partCount: nat): string {
    if partCount == 1 then "" else "-part" + PadTo(Decimal(part), 3)
  }

  function ValuesOf(c: Context, channel: string, part: nat, suffix: string, start: nat, end: nat): Values {
    Values(c.timestamp, c.profile, channel, c.sampleRate, part, suffix, start, end)
  }

  predicate Contains(segments: seq<Segment>, t: Token) {
    exists i :: 0 <= i < |segments| && (segments[i] == Hole(t) || (segments[i].Padded? && segments[i].token == t))
  }

  predicate ValuesAllowed(p: Policy, c: Context) {
    && (Contains(p.directory, Timestamp) || Contains(p.filename, Timestamp) ==> ValidComponent(c.timestamp))
    && (Contains(p.directory, Profile) || Contains(p.filename, Profile) ==> ValidComponent(c.profile))
  }

  /** `validate_pattern_capacity`: the worst case is known before rendering. */
  function CheckCapacity(p: Policy, c: Context, channel: string): Outcome<Error> {
    var v := ValuesOf(c, channel, 0, "", 0, 0);
    match (MaximumBytes(p.directory, v), MaximumBytes(p.filename, v))
    case (Some(directoryBytes), Some(filenameBytes)) =>
      var maximum := |p.outputDir| + (if p.outputDir == "/" then 0 else 1)
                     + directoryBytes + (if directoryBytes == 0 then 0 else 1) + filenameBytes;
      if maximum > U64_MAX then Fail(CapacityOverflow)
      else if maximum > c.maximumPath then Fail(CapacityExceeded)
      else Pass
    case _ => Fail(CapacityOverflow)
  }

  lemma {:induction false} MaximumIgnoresParts(segments: seq<Segment>, v: Values, w: Values)
    requires v.timestamp == w.timestamp && v.profile == w.profile && v.channel == w.channel
    ensures MaximumBytes(segments, v) == MaximumBytes(segments, w)
  {
    if segments != [] { MaximumIgnoresParts(segments[..|segments| - 1], v, w); }
  }

  lemma SuffixFits(part: nat, partCount: nat)
    requires part <= U64_MAX
    ensures |Suffix(part, partCount)| <= 25
  {
    Pow10Values();
    DecimalLength(part, 20);
  }

  /** After the capacity check no rendered path can be too long. */
  lemma PathFits(p: Policy, c: Context, channel: string, part: nat, partCount: nat, start: nat, end: nat)
    requires CheckCapacity(p, c, channel).Pass?
    requires c.sampleRate <= 0xFFFF_FFFF && part <= U64_MAX && start <= U64_MAX && end <= U64_MAX
    requires ValidOutputDir(p.outputDir)
    ensures var v := ValuesOf(c, channel, part, Suffix(part, partCount), start, end);
      Rendered(p.directory, v).Ok? && Rendered(p.filename, v).Ok? ==>
        var directory, filename := Rendered(p.directory, v).value, Rendered(p.filename, v).value;
        ValidDirectory(directory) && ValidComponent(filename) ==>
          && Under(FinalPath(p.outputDir, directory, filename), p.outputDir)
          && |FinalPath(p.outputDir, directory, filename)| <= c.maximumPath
  {
    var v := ValuesOf(c, channel, part, Suffix(part, partCount), start, end);
    SuffixFits(part, partCount);
    MaximumIgnoresParts(p.directory, v, ValuesOf(c, channel, 0, "", 0, 0));
    MaximumIgnoresParts(p.filename, v, ValuesOf(c, channel, 0, "", 0, 0));
    if Rendered(p.directory, v).Ok? && Rendered(p.filename, v).Ok? {
      RenderedFits(p.directory, v);
      RenderedFits(p.filename, v);
      var directory, filename := Rendered(p.directory, v).value, Rendered(p.filename, v).value;
      hide Rendered, MaximumBytes, Components, HasDoubleSlash, Join, Under;
      if ValidDirectory(directory) && ValidComponent(filename) {
        JoinedUnder(p.outputDir, directory, filename);
      }
    }
  }

  /** What output `j` of a channel is. */
  ghost predicate Describes(p: Policy, c: Context, o: Output, channel: nat, j: nat, parts: seq<WavPart>)
    requires j < |parts|
  {
    && o.channel == channel && o.part == j + 1 && o.partCount == |parts|
    && o.start == c.start + parts[j].start && o.end == o.start + parts[j].count
    && channel < |p.channels|
    && (var v := ValuesOf(c, p.channels[channel], o.part, Suffix(o.part, |parts|), o.start, o.end);
        Rendered(p.directory, v) == Ok(o.directory) && Rendered(p.filename, v) == Ok(o.filename))
    && ValidDirectory(o.directory) && ValidComponent(o.filename)
    && o.path == FinalPath(p.outputDir, o.directory, o.filename)
    && Under(o.path, p.outputDir) && |o.path| <= c.maximumPath
  }

  /** The parts of one channel, in order. */
  ghost predicate ChannelPlanned(p: Policy, c: Context, block: seq<Output>, channel: nat, parts: seq<WavPart>) {
    |block| == |parts| && forall j :: 0 <= j < |parts| ==> Describes(p, c, block[j], channel, j, parts)
  }

  /** For every retained channel in turn, its parts in order. */
  ghost predicate Planned(p: Policy, c: Context, outputs: seq<Output>, retained: seq<nat>, parts: seq<WavPart>)
    decreases |retained|
  {
    if retained == [] then outputs == []
    else
      var from := |outputs| - |parts|;
      && from >= 0
      && ChannelPlanned(p, c, outputs[from..], retained[|retained| - 1], parts)
      && Planned(p, c, outputs[..from], retained[..|retained| - 1], parts)
  }

  ghost predicate Distinct(outputs: seq<Output>) {
    forall i, j :: 0 <= i < j < |outputs| ==> outputs[i].path != outputs[j].path
  }

  ghost predicate NoConflict(outputs: seq<Output>) {
    forall i, j :: 0 <= i < j < |outputs| ==>
      !Under(outputs[i].path, outputs[j].path) && !Under(outputs[j].path, outputs[i].path)
  }

  // ---- why a plan fails ----

  /** A channel the plan may be made for. */
  ghost predicate ChannelFits(p: Policy, c: Context, channel: nat) {
    && channel < |p.channels| && ValidComponent(p.channels[channel])
    && CheckCapacity(p, c, p.channels[channel]).Pass?
  }

  /** What part `j` of a channel is rendered from. */
  ghost function PartValues(p: Policy, c: Context, channel: nat, j: nat, parts: seq<WavPart>): Values
    requires channel < |p.channels| && j < |parts|
  {
    var start := c.start + parts[j].start;
    ValuesOf(c, p.channels[channel], j + 1, Suffix(j + 1, |parts|), start, start + parts[j].count)
  }

  lemma PartDescribed(p: Policy, c: Context, o: Output, parts: seq<WavPart>)
    requires o.channel < |p.channels| && 0 < o.part <= |parts| == o.partCount
    requires o.start == c.start + parts[o.part - 1].start && o.end == o.start + parts[o.part - 1].count
    requires var v := PartValues(p, c, o.channel, o.part - 1, parts);
             Rendered(p.directory, v) == Ok(o.directory) && Rendered(p.filename, v) == Ok(o.filename)
    requires ValidDirectory(o.directory) && ValidComponent(o.filename)
    requires o.path == FinalPath(p.outputDir, o.directory, o.filename)
    requires Under(o.path, p.outputDir) && |o.path| <= c.maximumPath
    ensures Describes(p, c, o, o.channel, o.part - 1, parts)
  {
    hide ValidDirectory, ValidComponent, Under, FinalPath, Rendered;
  }

  ghost predicate PartFails(p: Policy, c: Context, channel: nat, j: nat, parts: seq<WavPart>, e: Error)
    requires channel < |p.channels| && j < |parts|
  {
    var v := PartValues(p, c, channel, j, parts);
    var directory, filename := Rendered(p.directory, v), Rendered(p.filename, v);
    match e
    case Rendering(render) => directory == Err(render) || (directory.Ok? && filename == Err(render))
    case BadDirectory => directory.Ok? && !ValidDirectory(directory.value)
    case BadFilename => filename.Ok? && !ValidComponent(filename.value)
    case _ => false
  }

  ghost predicate ChannelFails(p: Policy, c: Context, channel: nat, parts: seq<WavPart>, e: Error) {
    match e
    case BadChannelIndex => channel >= |p.channels|
    case BadChannelName => channel < |p.channels| && !ValidComponent(p.channels[channel])
    case CapacityOverflow => channel < |p.channels| && CheckCapacity(p, c, p.channels[channel]) == Fail(e)
    case CapacityExceeded => channel < |p.channels| && CheckCapacity(p, c, p.channels[channel]) == Fail(e)
    case _ => channel < |p.channels| && exists j :: 0 <= j < |parts| && PartFails(p, c, channel, j, parts, e)
  }

  /** Part `j` of the retained channel in place `i` has the path of another part. */
  ghost predicate Clash(p: Policy, c: Context, retained: seq<nat>, parts: seq<WavPart>, i: nat, j: nat) {
    && i < |retained| && j < |parts|
    && exists i': nat, j': nat, o: Output, o': Output ::
         && (i' < i || (i' == i && j' < j))
         && j' < |parts| && o.path == o'.path
         && Describes(p, c, o, retained[i], j, parts) && Describes(p, c, o', retained[i'], j', parts)
  }

  ghost predicate PlanFails(p: Policy, c: Context, retained: seq<nat>, parts: seq<WavPart>, e: Error) {
    match e
    case DuplicatePath => exists i: nat, j: nat :: Clash(p, c, retained, parts, i, j)
    case PathConflict => exists outputs :: Planned(p, c, outputs, retained, parts) && !NoConflict(outputs)
    case _ => exists i :: 0 <= i < |retained| && ChannelFails(p, c, retained[i], parts, e)
  }

  /** The parts that cover the export range, all but the last as large as the split
      limit allows. */
  ghost predicate Covering(c: Context, parts: seq<WavPart>) {
    && c.start <= c.end && Chained(parts, c.end - c.start)
    && PartCount(c.end - c.start, 3, c.split) == Ok(|parts|) && PartsFit(parts, c.split)
    && exists n :: FramesPerPart(3, c.split) == Ok(n) && Filled(parts, n, |parts| - 1)
  }

  /** Why no plan is made. */
  ghost predicate Refused(p: Policy, c: Context, retained: seq<nat>, e: Error) {
    match e
    case BadOutputDir => !ValidOutputDir(p.outputDir)
    case RangeReversed => c.end < c.start
    case NoPathBytes => c.maximumPath == 0
    case BadValue => !ValuesAllowed(p, c)
    case Splitting(error) => c.start <= c.end && PartCount(c.end - c.start, 3, c.split) == Err(error)
    case _ => exists parts :: Covering(c, parts) && PlanFails(p, c, retained, parts, e)
  }

  /** Every output of a plan is some part of some retained channel. */
  lemma {:induction false} PlannedAt(p: Policy, c: Context, outputs: seq<Output>, retained: seq<nat>,
                                     parts: seq<WavPart>, k: nat)
    returns (i: nat, j: nat)
    requires Planned(p, c, outputs, retained, parts) && k < |outputs|
    ensures i < |retained| && j < |parts| && Describes(p, c, outputs[k], retained[i], j, parts)
    decreases |retained|
  {
    hide Describes;
    var last := |retained| - 1;
    var from := |outputs| - |parts|;
    if k < from {
      i, j := PlannedAt(p, c, outputs[..from], retained[..last], parts, k);
    } else {
      i, j := last, k - from;
      assert outputs[from..][j] == outputs[k];
    }
  }

  lemma {:induction false} ChainedCount(parts: seq<WavPart>, end: nat)
    requires Chained(parts, end)
    ensures |parts| <= end
  {
    if parts != [] { ChainedCount(parts[..|parts| - 1], parts[|parts| - 1].start); }
  }

  method PlanPart(p: Policy, c: Context, channel: nat, j: nat, parts: seq<WavPart>) returns (r: Result<Output, Error>)
    requires ValidOutputDir(p.outputDir) && c.sampleRate <= 0xFFFF_FFFF && channel < |p.channels| && j < |parts|
    requires c.start <= c.end && Chained(parts, c.end - c.start) && CheckCapacity(p, c, p.channels[channel]).Pass?
    ensures r.Ok? ==> Describes(p, c, r.value, channel, j, parts)
    ensures r.Err? ==> PartFails(p, c, channel, j, parts, r.error)
  {
    var part, partCount := j + 1, |parts|;
    ChainedCount(parts, c.end - c.start);
    ChainedBelow(parts, c.end - c.start, j);
    var start := c.start + parts[j].start;
    var end := start + parts[j].count;
    var suffix := Suffix(part, partCount);
    var v := ValuesOf(c, p.channels[channel], part, suffix, start, end);
    PathFits(p, c, p.channels[channel], part, partCount, start, end);
    assert v == PartValues(p, c, channel, j, parts);
    hide Suffix, CheckCapacity, Chained, Join, Under, ValidDirectory, ValidComponent, ValidOutputDir, FinalPath,
         Rendered, PartValues, ValuesOf, Describes;
    var directory := Render(p.directory, v);
    if directory.Err? {
      return Err(Rendering(directory.error));
    }
    var filename := Render(p.filename, v);
    if filename.Err? {
      return Err(Rendering(filename.error));
    }
    if !ValidDirectory(directory.value) {
      return Err(BadDirectory);
    }
    if !ValidComponent(filename.value) {
      return Err(BadFilename);
    }
    var path := FinalPath(p.outputDir, directory.value, filename.value);
    if !Under(path, p.outputDir) {
      return Err(EscapesOutputDir);
    }
    if |path| > c.maximumPath {
      return Err(PathTooLong);
    }
    var output := Output(channel, part, partCount, start, end, directory.value, filename.value, path);
    PartDescribed(p, c, output, parts);
    return Ok(output);
  }

  ghost predicate PathsAre(paths: set<string>, outputs: seq<Output>) {
    && (forall i :: 0 <= i < |outputs| ==> outputs[i].path in paths)
    && (forall x :: x in paths ==> exists i :: 0 <= i < |outputs| && outputs[i].path == x)
  }

  method PlanChannel(p: Policy, c: Context, channel: nat, parts: seq<WavPart>, before: seq<Output>, paths: set<string>)
    returns (r: Result<seq<Output>, Error>, after: set<string>)
    requires ValidOutputDir(p.outputDir) && c.sampleRate <= 0xFFFF_FFFF && channel < |p.channels|
    requires c.start <= c.end && Chained(parts, c.end - c.start) && CheckCapacity(p, c, p.channels[channel]).Pass?
    requires Distinct(before) && PathsAre(paths, before)
    ensures r.Ok? ==>
      && |r.value| == |before| + |parts| && before <= r.value
      && ChannelPlanned(p, c, r.value[|before|..], channel, parts)
      && Distinct(r.value) && PathsAre(after, r.value)
    ensures r.Err? ==> Taken(p, c, channel, parts, before, r.error)
                       || (!r.error.DuplicatePath? && ChannelFails(p, c, channel, parts, r.error))
  {
    hide Describes, ValidOutputDir, CheckCapacity, Chained, Distinct, PathsAre, PartFails;
    var block: seq<Output> := [];
    after := paths;
    assert before + block == before;
    for j := 0 to |parts|
      invariant |block| == j && forall i :: 0 <= i < j ==> Describes(p, c, block[i], channel, i, parts)
      invariant Distinct(before + block) && PathsAre(after, before + block)
    {
      var o := PlanPart(p, c, channel, j, parts);
      if o.Err? {
        PartFailsKinds(p, c, channel, j, parts, o.error);
        return Err(o.error), after;
      }
      if o.value.path in after {
        PathTaken(p, c, channel, j, parts, before, block, after, o.value);
        return Err(DuplicatePath), after;
      }
      AddPath(after, before + block, o.value);
      after := after + {o.value.path};
      block := block + [o.value];
      assert before + block == before + block[..j] + [o.value];
    }
    assert (before + block)[|before|..] == block;
    return Ok(before + block), after;
  }

  /** A part of the channel has a path that was planned before. */
  ghost predicate Taken(p: Policy, c: Context, channel: nat, parts: seq<WavPart>, before: seq<Output>, e: Error) {
    && e.DuplicatePath?
    && exists j: nat, o: Output ::
         && j < |parts| && Describes(p, c, o, channel, j, parts)
         && ((exists k :: 0 <= k < |before| && before[k].path == o.path)
             || exists j': nat, o': Output :: j' < j && o'.path == o.path && Describes(p, c, o', channel, j', parts))
  }

  lemma PathTaken(p: Policy, c: Context, channel: nat, j: nat, parts: seq<WavPart>, before: seq<Output>,
                  block: seq<Output>, paths: set<string>, o: Output)
    requires j < |parts| && |block| == j && forall i :: 0 <= i < j ==> Describes(p, c, block[i], channel, i, parts)
    requires PathsAre(paths, before + block) && o.path in paths && Describes(p, c, o, channel, j, parts)
    ensures Taken(p, c, channel, parts, before, DuplicatePath)
  {
    hide Describes;
    var k :| 0 <= k < |before + block| && (before + block)[k].path == o.path;
    if k < |before| {
      assert before[k].path == o.path;
    } else {
      assert block[k - |before|].path == o.path && Describes(p, c, block[k - |before|], channel, k - |before|, parts);
    }
  }

  lemma PartFailsKinds(p: Policy, c: Context, channel: nat, j: nat, parts: seq<WavPart>, e: Error)
    requires channel < |p.channels| && j < |parts| && PartFails(p, c, channel, j, parts, e)
    ensures e.Rendering? || e.BadDirectory? || e.BadFilename?
    ensures ChannelFails(p, c, channel, parts, e)
  {
  }

  /** A path taken within one channel or by an earlier one is a clash. */
  lemma TakenClashes(p: Policy, c: Context, retained: seq<nat>, i: nat, parts: seq<WavPart>, before: seq<Output>)
    requires i < |retained| && Planned(p, c, before, retained[..i], parts)
    requires Taken(p, c, retained[i], parts, before, DuplicatePath)
    ensures PlanFails(p, c, retained, parts, DuplicatePath)
  {
    hide Describes, Planned;
    var j: nat, o :| j < |parts| && Describes(p, c, o, retained[i], j, parts)
                     && ((exists k :: 0 <= k < |before| && before[k].path == o.path)
                         || exists j': nat, o': Output :: j' < j && o'.path == o.path
                                                  && Describes(p, c, o', retained[i], j', parts));
    if k :| 0 <= k < |before| && before[k].path == o.path {
      var i', j' := PlannedAt(p, c, before, retained[..i], parts, k);
      assert retained[..i][i'] == retained[i'];
      assert Clash(p, c, retained, parts, i, j);
    } else {
      assert Clash(p, c, retained, parts, i, j);
    }
  }

  lemma AddPath(paths: set<string>, outputs: seq<Output>, o: Output)
    requires Distinct(outputs) && PathsAre(paths, outputs) && o.path !in paths
    ensures Distinct(outputs + [o]) && PathsAre(paths + {o.path}, outputs + [o])
  {
    var more := outputs + [o];
    forall x | x in paths + {o.path} ensures exists i :: 0 <= i < |more| && more[i].path == x {
      if x == o.path {
        assert more[|outputs|].path == x;
      } else {
        var i :| 0 <= i < |outputs| && outputs[i].path == x;
        assert more[i].path == x;
      }
    }
  }

  method CheckConflicts(outputs: seq<Output>) returns (r: Outcome<Error>)
    ensures r.Pass? <==> NoConflict(outputs)
    ensures r.Fail? ==> r.error == PathConflict
  {
    for i := 0 to |outputs|
      invariant forall a, b :: 0 <= a < b < |outputs| && a < i ==>
        !Under(outputs[a].path, outputs[b].path) && !Under(outputs[b].path, outputs[a].path)
    {
      for j := i + 1 to |outputs|
        invariant forall b :: i < b < j ==>
          !Under(outputs[i].path, outputs[b].path) && !Under(outputs[b].path, outputs[i].path)
      {
        if Under(outputs[i].path, outputs[j].path) || Under(outputs[j].path, outputs[i].path) {
          return Fail(PathConflict);
        }
      }
    }
    return Pass;
  }

  predicate LateError(e: Error) {
    && !e.BadOutputDir? && !e.RangeReversed? && !e.NoPathBytes? && !e.BadValue? && !e.Splitting?
    && !e.EscapesOutputDir? && !e.PathTooLong?
  }

  lemma ChannelErrors(p: Policy, c: Context, retained: seq<nat>, i: nat, parts: seq<WavPart>, before: seq<Output>,
                      e: Error)
    requires i < |retained| && retained[i] < |p.channels| && Planned(p, c, before, retained[..i], parts)
    requires Taken(p, c, retained[i], parts, before, e)
             || (!e.DuplicatePath? && ChannelFails(p, c, retained[i], parts, e))
    ensures LateError(e) && PlanFails(p, c, retained, parts, e)
  {
    if e.DuplicatePath? {
      TakenClashes(p, c, retained, i, parts, before);
    } else {
      hide Planned, Describes;
      assert e.BadDirectory? || e.BadFilename? || e.Rendering? || e.BadChannelIndex? || e.BadChannelName?
             || e.CapacityOverflow? || e.CapacityExceeded?;
    }
  }

  /** What the checks before a channel's parts find. */
  lemma ChannelJudged(p: Policy, c: Context, retained: seq<nat>, i: nat, parts: seq<WavPart>)
    requires i < |retained|
    ensures var channel := retained[i];
            if channel >= |p.channels| then
              LateError(BadChannelIndex) && PlanFails(p, c, retained, parts, BadChannelIndex)
            else if !ValidComponent(p.channels[channel]) then
              LateError(BadChannelName) && PlanFails(p, c, retained, parts, BadChannelName)
            else
              var r := CheckCapacity(p, c, p.channels[channel]);
              if r.Pass? then ChannelFits(p, c, channel)
              else LateError(r.error) && PlanFails(p, c, retained, parts, r.error)
  {
    var channel := retained[i];
    if channel >= |p.channels| {
      assert ChannelFails(p, c, retained[i], parts, BadChannelIndex);
    } else if !ValidComponent(p.channels[channel]) {
      assert ChannelFails(p, c, retained[i], parts, BadChannelName);
    } else {
      CapacityErrors(p, c, p.channels[channel]);
      hide CheckCapacity, ValidComponent;
      var r := CheckCapacity(p, c, p.channels[channel]);
      assert r.Fail? ==> ChannelFails(p, c, retained[i], parts, r.error);
    }
  }

  method PlanAll(p: Policy, c: Context, retained: seq<nat>, parts: seq<WavPart>) returns (r: Result<seq<Output>, Error>)
    requires ValidOutputDir(p.outputDir) && c.sampleRate <= 0xFFFF_FFFF
    requires c.start <= c.end && Chained(parts, c.end - c.start)
    ensures r.Ok? ==> Planned(p, c, r.value, retained, parts) && Distinct(r.value)
    ensures r.Ok? ==> forall i :: 0 <= i < |retained| ==> ChannelFits(p, c, retained[i])
    ensures r.Err? ==> LateError(r.error) && PlanFails(p, c, retained, parts, r.error)
  {
    hide ValidOutputDir, ChannelPlanned, Chained, Distinct, PathsAre, CheckCapacity, ValidComponent, ChannelFails,
         ChannelFits, PlanFails, Taken, LateError;
    var outputs: seq<Output>, paths: set<string> := [], {};
    NothingPlanned();
    for i := 0 to |retained|
      invariant Planned(p, c, outputs, retained[..i], parts) && Distinct(outputs) && PathsAre(paths, outputs)
      invariant forall k :: 0 <= k < i ==> ChannelFits(p, c, retained[k])
    {
      var channel := retained[i];
      ChannelJudged(p, c, retained, i, parts);
      if channel >= |p.channels| {
        return Err(BadChannelIndex);
      }
      if !ValidComponent(p.channels[channel]) {
        return Err(BadChannelName);
      }
      var capacity := CheckCapacity(p, c, p.channels[channel]);
      if capacity.Fail? {
        return Err(capacity.error);
      }
      ghost var before := outputs;
      var planned, after := PlanChannel(p, c, channel, parts, outputs, paths);
      if planned.Err? {
        ChannelErrors(p, c, retained, i, parts, before, planned.error);
        return Err(planned.error);
      }
      outputs, paths := planned.value, after;
      assert retained[..i + 1][..i] == retained[..i];
      assert outputs[..|outputs| - |parts|] == before;
    }
    assert retained[..|retained|] == retained;
    return Ok(outputs);
  }

  /** Every part fits the split limit with its header. */
  ghost predicate PartsFit(parts: seq<WavPart>, split: u64) {
    forall p :: p in parts ==> WAV_HEADER_BYTES + 3 * p.count <= split
  }

  /** A successful plan lists, for every retained channel in turn, parts that
      cover the export range exactly and fit the split limit, at distinct,
      conflict-free paths below the output directory and within the path limit.
      It is refused exactly for its input: the late checks on escape and length
      never fail. */
  method Preview(p: Policy, c: Context, retained: seq<nat>) returns (r: Result<seq<Output>, Error>)
    requires c.sampleRate <= 0xFFFF_FFFF
    ensures r.Ok? ==>
      && ValidOutputDir(p.outputDir) && c.maximumPath > 0 && ValuesAllowed(p, c)
      && (forall i :: 0 <= i < |retained| ==> ChannelFits(p, c, retained[i]))
      && (exists parts: seq<WavPart> :: Covering(c, parts) && Planned(p, c, r.value, retained, parts))
      && Distinct(r.value) && NoConflict(r.value)
    ensures r.Err? ==> Refused(p, c, retained, r.error) && !r.error.EscapesOutputDir? && !r.error.PathTooLong?
  {
    hide ValidOutputDir, Planned, Chained, Distinct, NoConflict, PartCount, ValuesAllowed, PlanFails, ChannelFits;
    if !ValidOutputDir(p.outputDir) {
      return Err(BadOutputDir);
    }
    if c.end < c.start {
      return Err(RangeReversed);
    }
    if c.maximumPath == 0 {
      return Err(NoPathBytes);
    }
    if !ValuesAllowed(p, c) {
      return Err(BadValue);
    }
    var split := PartsForChannel(c.end - c.start, 3, c.split);
    if split.Err? {
      return Err(Splitting(split.error));
    }
    assert Covering(c, split.value);
    var outputs := PlanAll(p, c, retained, split.value);
    if outputs.Err? {
      return outputs;
    }
    var conflicts := CheckConflicts(outputs.value);
    if conflicts.Fail? {
      ConflictFails(p, c, retained, split.value, outputs.value);
      return Err(conflicts.error);
    }
    return outputs;
  }

  lemma ConflictFails(p: Policy, c: Context, retained: seq<nat>, parts: seq<WavPart>, outputs: seq<Output>)
    requires Planned(p, c, outputs, retained, parts) && !NoConflict(outputs)
    ensures PlanFails(p, c, retained, parts, PathConflict)
  {
  }

  lemma NothingPlanned()
    ensures Distinct([]) && PathsAre({}, [])
  {
  }

  lemma CapacityErrors(p: Policy, c: Context, channel: string)
    ensures var r := CheckCapacity(p, c, channel); r.Fail? ==> r.error in {CapacityOverflow, CapacityExceeded}
  {
  }
}
