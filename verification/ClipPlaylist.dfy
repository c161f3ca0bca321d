/**
 Reading a clip's playlist: the init segment of its last `#EXT-X-MAP` line, then its fragments in file order.

 `Written` is a playlist as a server writes it, entry by entry; `ReadsBack` says the parser recovers exactly the
 entries from the text, whatever white space, blank lines and comments surround them.
 */
module ClipPlaylist {
  import opened Prelude
  import opened ClipText
  import opened ClipUrls

  const MAP_TAG := "#EXT-X-MAP"
  const URI_KEY := "URI=\""

  datatype Outcome =
    | Segments(segments: seq<string>)
    | NamesNoSegments
    | FragmentsWithoutInit

  predicate EndsWith(s: string, suffix: string) {
    |suffix| <= |s| && s[|s| - |suffix|..] == suffix
  }

  predicate StartsWith(s: string, prefix: string) {
    |prefix| <= |s| && s[..|prefix|] == prefix
  }

  /** A fragment that no player opens without an init segment. */
  predicate NeedsInit(segment: string) {
    var path := PathOf(segment);
    EndsWith(path, ".m4s") || EndsWith(path, ".mp4") || EndsWith(path, ".m4a") || EndsWith(path, ".m4v")
  }

  predicate AnyNeedsInit(segments: seq<string>) {
    exists i :: 0 <= i < |segments| && NeedsInit(segments[i])
  }

  /** The quoted URI in what follows the tag. */
  function InitUri(rest: string): Option<string> {
    match Find(rest, URI_KEY)
    case None => None
    case Some(start) =>
      var after := rest[start + |URI_KEY|..];
      match Find(after, "\"") case None => None case Some(end) => Some(after[..end])
  }

  /** What one trimmed line contributes. */
  function InitIn(l: string): seq<string> {
    if StartsWith(l, MAP_TAG) && InitUri(l[|MAP_TAG|..]).Some? then [InitUri(l[|MAP_TAG|..]).value] else []
  }

  function FragmentIn(l: string): seq<string> {
    if l != [] && l[0] != '#' then [l] else []
  }

  lemma TagIsNoFragment(l: string)
    requires StartsWith(l, MAP_TAG)
    ensures FragmentIn(l) == []
  {
    assert l[0] == MAP_TAG[0];
  }

  function Flat(parts: seq<seq<string>>): seq<string> {
    if parts == [] then [] else Flat(parts[..|parts| - 1]) + parts[|parts| - 1]
  }

  function InitParts(lines: seq<string>): seq<seq<string>> {
    seq(|lines|, i requires 0 <= i < |lines| => InitIn(Trim(lines[i])))
  }

  function FragmentParts(lines: seq<string>): seq<seq<string>> {
    seq(|lines|, i requires 0 <= i < |lines| => FragmentIn(Trim(lines[i])))
  }

  function Inits(lines: seq<string>): seq<string> {
    Flat(InitParts(lines))
  }

  function Fragments(lines: seq<string>): seq<string> {
    Flat(FragmentParts(lines))
  }

  function LastOf(inits: seq<string>): Option<string> {
    if inits == [] then None else Some(inits[|inits| - 1])
  }

  lemma OneMoreLine(lines: seq<string>, line: string)
    ensures Fragments(lines + [line]) == Fragments(lines) + FragmentIn(Trim(line))
    ensures Inits(lines + [line]) == Inits(lines) + InitIn(Trim(line))
  {
    assert FragmentParts(lines + [line]) == FragmentParts(lines) + [FragmentIn(Trim(line))];
    assert InitParts(lines + [line]) == InitParts(lines) + [InitIn(Trim(line))];
  }

  /** The last init segment named counts; without one, no fragment may need it. */
  function Assembled(inits: seq<string>, fragments: seq<string>): Outcome {
    if fragments == [] then NamesNoSegments
    else if inits != [] then Segments([inits[|inits| - 1]] + fragments)
    else if AnyNeedsInit(fragments) then FragmentsWithoutInit
    else Segments(fragments)
  }

  method ParsePlaylist(playlist: string) returns (r: Outcome)
    ensures r == Assembled(Inits(Lines(playlist)), Fragments(Lines(playlist)))
  {
    var lines := Lines(playlist);
    var init: Option<string> := None;
    var segments: seq<string> := [];
    for n := 0 to |lines|
      invariant segments == Fragments(lines[..n])
      invariant init == LastOf(Inits(lines[..n]))
    {
      var line := Trim(lines[n]);
      assert lines[..n + 1] == lines[..n] + [lines[n]];
      OneMoreLine(lines[..n], lines[n]);
      assert Inits(lines[..n + 1]) == Inits(lines[..n]) + InitIn(line);
      if line == [] { continue; }
      if StartsWith(line, MAP_TAG) {
        TagIsNoFragment(line);
        var rest := line[|MAP_TAG|..];
        var start := Find(rest, URI_KEY);
        if start.Some? {
          var after := rest[start.value + |URI_KEY|..];
          var end := Find(after, "\"");
          if end.Some? {
            init := Some(after[..end.value]);
          }
        }
        continue;
      }
      if line[0] == '#' { continue; }
      segments := segments + [line];
    }
    assert lines[..|lines|] == lines;
    if segments == [] { return NamesNoSegments; }
    if init.None? && AnyNeedsInit(segments) {
      return FragmentsWithoutInit;
    }
    r := match init case Some(i) => Segments([i] + segments) case None => Segments(segments);
  }

  /**
   One request per segment, in order. With a clean playlist URL each goes to the origin its segment names, or else
   the playlist's, and carries the token exactly when that is the playlist's.
   */
  method SegmentRequests(url: string, jwt: Option<string>, segments: seq<string>) returns (requests: seq<Request>)
    ensures |requests| == |segments| && forall i :: 0 <= i < |segments| ==> Serves(url, jwt, segments[i], requests[i])
  {
    requests := [];
    for n := 0 to |segments|
      invariant |requests| == n && forall i :: 0 <= i < n ==> Serves(url, jwt, segments[i], requests[i])
    {
      var request := SegmentRequest(url, jwt, segments[n]);
      requests := requests + [request];
    }
  }

  method SegmentRequest(url: string, jwt: Option<string>, segment: string) returns (request: Request)
    ensures Serves(url, jwt, segment, request)
  {
    var resolved := JoinUrl(url, segment);
    var bearer := if jwt.Some? && SameOrigin(resolved, url) then jwt else None;
    request := Request(resolved, bearer);
    RequestServes(url, jwt, segment);
  }

  /** `clip_segment_requests`, from the playlist's text. */
  method ClipSegmentRequests(playlist: string, url: string, jwt: Option<string>)
    returns (r: Outcome, requests: seq<Request>)
    ensures r == Assembled(Inits(Lines(playlist)), Fragments(Lines(playlist)))
    ensures !r.Segments? ==> requests == []
    ensures r.Segments? ==>
              && |requests| == |r.segments|
              && forall i :: 0 <= i < |requests| ==> Serves(url, jwt, r.segments[i], requests[i])
  {
    r := ParsePlaylist(playlist);
    requests := [];
    if r.Segments? {
      requests := SegmentRequests(url, jwt, r.segments);
    }
  }

  // ----- playlists as they are written -----

  datatype Entry =
    | Fragment(name: string)
    | Map(attributes: string, uri: string, more: string)
    | Comment(text: string)
    | Blank

  /** An entry with the white space around it, a `\r` for one. */
  datatype Written = Written(before: string, entry: Entry, after: string)

  predicate OneLine(s: string) {
    '\n' !in s
  }

  predicate Padding(s: string) {
    OneLine(s) && forall c :: c in s ==> IsWhite(c)
  }

  predicate WellWritten(w: Written) {
    && Padding(w.before) && Padding(w.after)
    && match w.entry
       case Fragment(name) => Bare(name) && OneLine(name) && name[0] != '#'
       case Map(attributes, uri, more) =>
         && OneLine(attributes) && '\"' !in attributes && OneLine(uri) && '\"' !in uri
         && OneLine(more) && (more != [] ==> !IsWhite(more[|more| - 1]))
       case Comment(text) =>
         && OneLine(text) && (text != [] ==> !IsWhite(text[|text| - 1])) && !StartsWith("#" + text, MAP_TAG)
       case Blank => true
  }

  function TextOf(e: Entry): string {
    match e
    case Fragment(name) => name
    case Map(attributes, uri, more) => MAP_TAG + (attributes + URI_KEY + (uri + "\"" + more))
    case Comment(text) => "#" + text
    case Blank => ""
  }

  function LineOf(w: Written): string {
    w.before + TextOf(w.entry) + w.after
  }

  function LinesIn(ws: seq<Written>): seq<string> {
    seq(|ws|, i requires 0 <= i < |ws| => LineOf(ws[i]))
  }

  function Text(ws: seq<Written>): string {
    Joined(LinesIn(ws))
  }

  function InitOf(e: Entry): seq<string> {
    if e.Map? then [e.uri] else []
  }

  function FragmentOf(e: Entry): seq<string> {
    if e.Fragment? then [e.name] else []
  }

  function InitsIn(ws: seq<Written>): seq<string> {
    Flat(seq(|ws|, i requires 0 <= i < |ws| => InitOf(ws[i].entry)))
  }

  function FragmentsIn(ws: seq<Written>): seq<string> {
    Flat(seq(|ws|, i requires 0 <= i < |ws| => FragmentOf(ws[i].entry)))
  }

  // ----- the parser reads them back -----

  lemma QuoteIsFirst(s: string, more: string)
    requires '\"' !in s
    ensures Find(s + "\"" + more, "\"") == Some(|s|)
    ensures (s + "\"" + more)[..|s|] == s
  {
    var all := s + "\"" + more;
    Parts(s, "\"", more);
    assert forall j: nat :: Occurs(all, "\"", j) ==> all[j] == all[j..j + 1][0];
    assert forall j: nat :: j < |s| ==> all[j] == s[j];
    FindIs(all, "\"", |s|);
  }

  lemma KeyIsFirst(attributes: string, rest: string)
    requires '\"' !in attributes
    ensures Find(attributes + URI_KEY + rest, URI_KEY) == Some(|attributes|)
    ensures (attributes + URI_KEY + rest)[|attributes| + |URI_KEY|..] == rest
  {
    var all := attributes + URI_KEY + rest;
    Parts(attributes, URI_KEY, rest);
    forall j: nat | j < |attributes|
      ensures !Occurs(all, URI_KEY, j)
    {
      assert all[j + 4] != URI_KEY[4];
    }
    FindIs(all, URI_KEY, |attributes|);
  }

  lemma MapReadsBack(attributes: string, uri: string, more: string)
    requires '\"' !in attributes && '\"' !in uri
    ensures InitUri(attributes + URI_KEY + (uri + "\"" + more)) == Some(uri)
  {
    KeyIsFirst(attributes, uri + "\"" + more);
    QuoteIsFirst(uri, more);
  }

  lemma TextReadsBack(w: Written)
    requires WellWritten(w)
    ensures InitIn(TextOf(w.entry)) == InitOf(w.entry) && FragmentIn(TextOf(w.entry)) == FragmentOf(w.entry)
  {
    if w.entry.Map? {
      var text := TextOf(w.entry);
      assert StartsWith(text, MAP_TAG);
      TagIsNoFragment(text);
      var tail := w.entry.attributes + URI_KEY + (w.entry.uri + "\"" + w.entry.more);
      assert text[|MAP_TAG|..] == tail;
      MapReadsBack(w.entry.attributes, w.entry.uri, w.entry.more);
    }
  }

  lemma TextIsBare(w: Written)
    requires WellWritten(w) && !w.entry.Blank?
    ensures Bare(TextOf(w.entry))
  {
    if w.entry.Map? {
      var more := w.entry.more;
      var end := w.entry.uri + "\"" + more;
      assert end[|end| - 1] == if more == [] then '\"' else more[|more| - 1];
      var tail := w.entry.attributes + URI_KEY + end;
      assert tail[|tail| - 1] == end[|end| - 1];
    }
  }

  predicate ReadBack(w: Written) {
    InitIn(Trim(LineOf(w))) == InitOf(w.entry) && FragmentIn(Trim(LineOf(w))) == FragmentOf(w.entry)
  }

  lemma LineReadsBack(w: Written)
    requires WellWritten(w)
    ensures ReadBack(w)
  {
    TextReadsBack(w);
    if w.entry.Blank? {
      TrimWhite(w.before + "" + w.after);
    } else {
      TextIsBare(w);
      TrimBare(w.before, TextOf(w.entry), w.after);
    }
  }

  lemma LinesReadBack(ws: seq<Written>)
    requires forall i :: 0 <= i < |ws| ==> ReadBack(ws[i])
    ensures Inits(LinesIn(ws)) == InitsIn(ws) && Fragments(LinesIn(ws)) == FragmentsIn(ws)
  {
    assert InitParts(LinesIn(ws)) == seq(|ws|, i requires 0 <= i < |ws| => InitOf(ws[i].entry));
    assert FragmentParts(LinesIn(ws)) == seq(|ws|, i requires 0 <= i < |ws| => FragmentOf(ws[i].entry));
  }

  /** Every playlist that can be written is read as it was written. */
  lemma ReadsBack(ws: seq<Written>)
    requires forall i :: 0 <= i < |ws| ==> WellWritten(ws[i])
    ensures Inits(Lines(Text(ws))) == InitsIn(ws)
    ensures Fragments(Lines(Text(ws))) == FragmentsIn(ws)
  {
    forall i | 0 <= i < |ws|
      ensures OneLine(LinesIn(ws)[i]) && ReadBack(ws[i])
    {
      LineReadsBack(ws[i]);
    }
    LinesOfJoined(LinesIn(ws));
    OneMoreLine(LinesIn(ws), "");
    assert Trim("") == "";
    LinesReadBack(ws);
  }

  /** Whether a fragment needs an init segment is decided by the end of its path, whatever its host and query. */
  lemma SuffixDecides(root: string, path: string, query: string)
    requires Clean(path) && (query != [] ==> query[0] in QUERY)
    requires if root == [] then !Contains(path + query, SEP)
             else OriginOf(root + path + query).Some? && root == Root(OriginOf(root + path + query).value)
                  && path != [] && path[0] == '/'
    ensures NeedsInit(root + path + query) <==>
            exists n :: 0 <= n <= |path|
                        && (path[n..] == ".m4s" || path[n..] == ".mp4" || path[n..] == ".m4a" || path[n..] == ".m4v")
  {
    if root == [] {
      assert root + path + query == path + query;
      PathOfRelative(path, query);
    } else {
      PathOfAbsolute(OriginOf(root + path + query).value, path, query);
    }
    assert PathOf(root + path + query) == path;
    SuffixAt(path, ".m4s");
    SuffixAt(path, ".mp4");
    SuffixAt(path, ".m4a");
    SuffixAt(path, ".m4v");
  }

  lemma SuffixAt(s: string, suffix: string)
    ensures EndsWith(s, suffix) <==> exists n :: 0 <= n <= |s| && s[n..] == suffix
  {
    if n :| 0 <= n <= |s| && s[n..] == suffix {
      assert n == |s| - |suffix|;
    }
  }

  /**
   What a written playlist comes to: an error exactly when it names no fragment, or names no init segment and has a
   fragment that needs one; else its last init segment, if any, and then its fragments in file order.
   */
  lemma PlaylistOutcome(ws: seq<Written>)
    requires forall i :: 0 <= i < |ws| ==> WellWritten(ws[i])
    ensures var r := Assembled(Inits(Lines(Text(ws))), Fragments(Lines(Text(ws))));
            var inits, fragments := InitsIn(ws), FragmentsIn(ws);
            && (r.NamesNoSegments? <==> fragments == [])
            && (r.FragmentsWithoutInit? <==>
                fragments != [] && inits == [] && exists i :: 0 <= i < |fragments| && NeedsInit(fragments[i]))
            && (r.Segments? && inits == [] ==> r.segments == fragments)
            && (r.Segments? && inits != [] ==>
                  r.segments[0] == inits[|inits| - 1] && r.segments[1..] == fragments)
  {
    ReadsBack(ws);
  }
}
