/**
 Where a clip's segments are fetched from, and which requests carry the bearer token.

 The resolver knows three kinds of reference: one with its own scheme, an absolute path, and a relative name. It
 resolves no dot segments, and `//host` stays on the playlist's authority.
 */
module ClipUrls {
  import opened Prelude
  import opened ClipText

  const SEP := "://"
  const QUERY := "?#"

  datatype Origin = Origin(scheme: string, authority: string)

  /** Scheme and authority of a URL; `None` without a `://`. */
  function OriginOf(url: string): Option<Origin> {
    match Find(url, SEP)
    case None => None
    case Some(i) => Some(Origin(url[..i], UpTo(url[i + 3..], "/")))
  }

  predicate SameOrigin(a: string, b: string) {
    match (OriginOf(a), OriginOf(b))
    case (Some(x), Some(y)) => x == y
    case _ => true
  }

  /** A segment's path, without its query. */
  function PathOf(segment: string): string {
    var path := match Find(segment, SEP)
                case None => segment
                case Some(i) =>
                  var rest := segment[i + 3..];
                  match Find(rest, "/") case None => "" case Some(slash) => rest[slash..];
    UpTo(path, QUERY)
  }

  function JoinUrl(playlist: string, segment: string): string {
    if Contains(segment, SEP) then segment
    else
      match Find(playlist, SEP)
      case None => segment
      case Some(i) =>
        var scheme, rest := playlist[..i], playlist[i + 3..];
        if segment != [] && segment[0] == '/' then scheme + SEP + UpTo(rest, "/") + "/" + segment[1..]
        else Directory(playlist, |scheme|) + "/" + segment
  }

  function Directory(playlist: string, scheme: nat): string {
    var base := UpTo(playlist, QUERY);
    match LastSlash(base)
    case Some(slash) => if slash > scheme + 2 then base[..slash] else base
    case None => base
  }

  // ----- the parts of a URL, by position -----

  predicate Clean(s: string) {
    forall i :: 0 <= i < |s| ==> s[i] !in QUERY
  }

  function Root(o: Origin): string {
    o.scheme + SEP + o.authority
  }

  /** The first `://` of `url` is at `i`, and what is behind it has its first slash, or ends, at `e`. */
  predicate Splits(url: string, i: nat, e: nat) {
    && i + 3 <= e <= |url| && Occurs(url, SEP, i) && (forall j: nat :: j < i ==> !Occurs(url, SEP, j))
    && (forall k :: i + 3 <= k < e ==> url[k] != '/') && (e < |url| ==> url[e] == '/')
  }

  lemma SplitsOf(url: string) returns (i: nat, e: nat)
    requires OriginOf(url).Some?
    ensures Splits(url, i, e) && OriginOf(url).value == Origin(url[..i], url[i + 3..e])
  {
    i := Find(url, SEP).value;
    var rest := url[i + 3..];
    e := i + 3 + |UpTo(rest, "/")|;
    assert forall k :: i + 3 <= k < |url| ==> url[k] == rest[k - i - 3];
  }

  lemma OriginIs(url: string, i: nat, e: nat)
    requires Splits(url, i, e)
    ensures OriginOf(url) == Some(Origin(url[..i], url[i + 3..e]))
  {
    var rest := url[i + 3..];
    FindIs(url, SEP, i);
    UpToIs(rest, "/", e - i - 3);
    assert rest[..e - i - 3] == url[i + 3..e];
  }

  /** A URL that starts like the playlist, past its `://`, has the playlist's scheme. */
  lemma OriginOfSharing(playlist: string, i: nat, e: nat, url: string, d: nat)
    requires Splits(playlist, i, e) && i + 3 <= d <= e
    requires d < |url| && url[..d] == playlist[..d] && url[d] == '/'
    ensures OriginOf(url) == Some(Origin(playlist[..i], playlist[i + 3..d]))
  {
    assert forall k :: 0 <= k < d ==> url[k] == url[..d][k] && playlist[k] == playlist[..d][k];
    forall j: nat | j <= i
      ensures Occurs(url, SEP, j) <==> Occurs(playlist, SEP, j)
    {
      OccursInPrefix(url, playlist, d, SEP, j);
    }
    OriginIs(url, i, d);
    assert url[..i] == playlist[..i] && url[i + 3..d] == playlist[i + 3..d];
  }

  /** Where the directory of the playlist ends; `q` is where its query starts. */
  lemma DirectoryEnds(playlist: string, i: nat, e: nat) returns (d: nat)
    requires Splits(playlist, i, e)
    ensures d <= |playlist| && Directory(playlist, i) == playlist[..d]
    ensures var q := |UpTo(playlist, QUERY)|;
            if q >= e then d >= e else d == q
  {
    var base := UpTo(playlist, QUERY);
    d := |Directory(playlist, i)|;
    assert forall k :: 0 <= k < |base| ==> base[k] == playlist[k];
    assert Directory(playlist, i) == base[..d];
    if e < |base| {
      assert base[e] == '/';
    }
  }

  /** The query starts past the authority exactly when scheme and authority hold no `?` or `#`. */
  lemma QueryStarts(playlist: string, i: nat, e: nat)
    requires Splits(playlist, i, e)
    ensures var q := |UpTo(playlist, QUERY)|;
            && (q >= e <==> Clean(playlist[..i]) && Clean(playlist[i + 3..e]))
            && (q < i || i + 3 <= q)
  {
    var q := |UpTo(playlist, QUERY)|;
    var sep := playlist[i..i + |SEP|];
    assert forall k :: i <= k < i + 3 ==> playlist[k] == sep[k - i];
    if q < e {
      if q < i {
        assert playlist[..i][q] in QUERY;
      } else {
        assert playlist[i + 3..e][q - i - 3] in QUERY;
      }
    }
  }

  // ----- resolving stays on the origin -----

  /** An absolute path always lands on the playlist's scheme and authority, `//host` included. */
  lemma AbsolutePathStays(playlist: string, segment: string)
    requires OriginOf(playlist).Some? && !Contains(segment, SEP) && segment != [] && segment[0] == '/'
    ensures JoinUrl(playlist, segment) == Root(OriginOf(playlist).value) + segment
    ensures OriginOf(JoinUrl(playlist, segment)) == OriginOf(playlist)
  {
    var i, e := SplitsOf(playlist);
    var root := Root(OriginOf(playlist).value);
    RootIsPrefix(playlist, i, e);
    assert ['/'] + segment[1..] == segment;
    Parts(root, "/", segment[1..]);
    OriginOfSharing(playlist, i, e, root + segment, e);
  }

  lemma RootIsPrefix(playlist: string, i: nat, e: nat)
    requires Splits(playlist, i, e)
    ensures Root(Origin(playlist[..i], playlist[i + 3..e])) == playlist[..e]
  {
    assert playlist[i..i + |SEP|] == SEP;
    assert playlist[..i + 3] == playlist[..i] + SEP;
    assert playlist[..e] == playlist[..i + 3] + playlist[i + 3..e];
  }

  /** Nothing cut inside the scheme has the playlist's origin once a name is put behind it. */
  lemma CutSchemeDiffers(playlist: string, i: nat, d: nat, segment: string)
    requires Find(playlist, SEP) == Some(i) && d < i
    requires !Contains(segment, SEP) && !(segment != [] && segment[0] == '/')
    ensures OriginOf(playlist[..d] + "/" + segment) != OriginOf(playlist)
  {
    var url := playlist[..d] + "/" + segment;
    if OriginOf(url) == OriginOf(playlist) {
      assert |url[..Find(url, SEP).value]| == i;
      assert url[i..i + 3] == SEP;
      var j := i - d - 1;
      assert segment[j..j + 3] == url[i..i + 3];
      assert Occurs(segment, SEP, j);
    }
  }

  /** The origin of a name put behind the playlist's first `d` chars, `d` past its `://`. */
  lemma OriginBehind(playlist: string, i: nat, e: nat, d: nat, segment: string)
    requires Splits(playlist, i, e) && i + 3 <= d <= |playlist|
    ensures OriginOf(playlist[..d] + "/" + segment)
         == Some(Origin(playlist[..i], playlist[i + 3..if d < e then d else e]))
  {
    var url := playlist[..d] + "/" + segment;
    var m := if d < e then d else e;
    assert url[..m] == playlist[..m];
    OriginOfSharing(playlist, i, e, url, m);
  }

  /**
   A relative name lands on the playlist's scheme and authority exactly when neither holds a `?` or `#`; where
   one does, the query is cut off first and the name resolves elsewhere.
   */
  lemma RelativeStaysExactlyWhen(playlist: string, segment: string)
    requires OriginOf(playlist).Some? && !Contains(segment, SEP) && !(segment != [] && segment[0] == '/')
    ensures OriginOf(JoinUrl(playlist, segment)) == OriginOf(playlist)
       <==> Clean(OriginOf(playlist).value.scheme) && Clean(OriginOf(playlist).value.authority)
  {
    var i, e := SplitsOf(playlist);
    assert |playlist[..Find(playlist, SEP).value]| == i;
    QueryStarts(playlist, i, e);
    var d := DirectoryEnds(playlist, i, e);
    assert JoinUrl(playlist, segment) == playlist[..d] + "/" + segment;
    if d < i {
      CutSchemeDiffers(playlist, i, d, segment);
    } else {
      OriginBehind(playlist, i, e, d, segment);
      if d < e {
        assert |playlist[i + 3..d]| < |playlist[i + 3..e]|;
      }
    }
  }

  /** Resolving twice is resolving once: what was resolved names its own origin. */
  lemma JoinIsIdempotent(playlist: string, segment: string)
    requires CleanUrl(playlist)
    ensures JoinUrl(playlist, JoinUrl(playlist, segment)) == JoinUrl(playlist, segment)
  {
    if !Contains(segment, SEP) {
      if segment != [] && segment[0] == '/' {
        AbsolutePathStays(playlist, segment);
      } else {
        RelativeStaysExactlyWhen(playlist, segment);
      }
    }
  }

  // ----- where a segment resolves to -----

  /** A playlist URL by its parts: a directory that starts and ends with a slash, a file name, a query; or no path. */
  datatype PlaylistUrl = PlaylistUrl(origin: Origin, directory: string, file: string, query: string)

  predicate WellFormed(u: PlaylistUrl) {
    && OriginOf(Root(u.origin)) == Some(u.origin) && Clean(Root(u.origin))
    && (if u.directory == [] then u.file == [] && u.query == []
        else u.directory[0] == '/' && u.directory[|u.directory| - 1] == '/')
    && Clean(u.directory) && Clean(u.file) && '/' !in u.file
    && (u.query != [] ==> u.query[0] in QUERY)
  }

  function UrlOf(u: PlaylistUrl): string {
    Root(u.origin) + u.directory + u.file + u.query
  }

  /** What a segment of that playlist names: itself, a path on the host, or a name in the playlist's directory. */
  function Target(u: PlaylistUrl, segment: string): string {
    if OriginOf(segment).Some? then segment
    else if segment != [] && segment[0] == '/' then Root(u.origin) + segment
    else Root(u.origin) + (if u.directory == [] then "/" else u.directory) + segment
  }

  lemma OriginOfUrl(u: PlaylistUrl)
    requires WellFormed(u)
    ensures OriginOf(UrlOf(u)) == Some(u.origin) && Find(UrlOf(u), SEP) == Some(|u.origin.scheme|)
  {
    var root, url := Root(u.origin), UrlOf(u);
    var i, e := SplitsOf(root);
    assert |root[..i]| == |u.origin.scheme| && |root[i + 3..e]| == |u.origin.authority|;
    if u.directory == [] {
      assert url == root;
    } else {
      assert url == root + (u.directory + u.file + u.query);
      assert url[..|root|] == root[..|root|] && url[|root|] == '/';
      OriginOfSharing(root, i, e, url, |root|);
    }
    assert |url[..Find(url, SEP).value]| == |u.origin.scheme|;
  }

  lemma CleanConcat(a: string, b: string)
    requires Clean(a) && Clean(b)
    ensures Clean(a + b)
  {
  }

  /** The directory of a base whose last slash is at `k`, behind the scheme: what is ahead of the slash. */
  lemma DirectoryAhead(base: string, query: string, scheme: nat, k: nat)
    requires Clean(base) && (query != [] ==> query[0] in QUERY)
    requires scheme + 2 < k < |base| && base[k] == '/' && forall i :: k < i < |base| ==> base[i] != '/'
    ensures Directory(base + query, scheme) == base[..k]
  {
    UpToParts(base, query, QUERY);
  }

  /** The directory of a playlist that has a path: everything ahead of the slash before its file name. */
  lemma DirectoryOfUrl(u: PlaylistUrl)
    requires WellFormed(u) && u.directory != []
    ensures Directory(UrlOf(u), |u.origin.scheme|) + "/" == Root(u.origin) + u.directory
  {
    var root := Root(u.origin);
    var head := root + u.directory;
    var base := head + u.file;
    CleanConcat(root, u.directory);
    CleanConcat(head, u.file);
    var k := |head| - 1;
    assert base[k] == head[k] && head[k] == u.directory[|u.directory| - 1];
    forall i | k < i < |base| ensures base[i] != '/' {
      assert base[i] == u.file[i - |head|];
    }
    DirectoryAhead(base, u.query, |u.origin.scheme|, k);
    assert base[..k] + "/" == head;
  }

  /** The directory of a playlist without a path is its root. */
  lemma DirectoryOfRoot(u: PlaylistUrl)
    requires WellFormed(u) && u.directory == []
    ensures UrlOf(u) == Root(u.origin) && Directory(UrlOf(u), |u.origin.scheme|) == Root(u.origin)
  {
    var root := Root(u.origin);
    assert UrlOf(u) == root;
    var i, e := SplitsOf(root);
    assert |root[..i]| == |u.origin.scheme| && |root[i + 3..e]| == |u.origin.authority|;
  }

  /**
   Resolving, by the parts of the playlist's URL: a segment with its own scheme stands as it is, an absolute path
   goes behind the root, and any other name replaces the playlist's file name and query in its directory.
   */
  lemma ResolvesToTarget(u: PlaylistUrl, segment: string)
    requires WellFormed(u)
    ensures JoinUrl(UrlOf(u), segment) == Target(u, segment)
  {
    OriginOfUrl(u);
    if !Contains(segment, SEP) {
      if segment != [] && segment[0] == '/' {
        AbsolutePathStays(UrlOf(u), segment);
      } else if u.directory == [] {
        DirectoryOfRoot(u);
      } else {
        DirectoryOfUrl(u);
      }
    }
  }

  // ----- the path of a segment -----

  /** The path of an absolute URL: not its host, not its query. */
  lemma PathOfAbsolute(o: Origin, path: string, query: string)
    requires OriginOf(Root(o) + path + query) == Some(o)
    requires path != [] && path[0] == '/' && Clean(path) && (query != [] ==> query[0] in QUERY)
    ensures PathOf(Root(o) + path + query) == path
  {
    var url := Root(o) + path + query;
    var i, e := SplitsOf(url);
    RootIsPrefix(url, i, e);
    assert |url[..i]| == |o.scheme| && |url[i + 3..e]| == |o.authority|;
    Parts(Root(o), path, query);
    FirstSlash(url, i, e);
    UpToParts(path, query, QUERY);
  }

  lemma FirstSlash(url: string, i: nat, e: nat)
    requires Splits(url, i, e) && e < |url|
    ensures PathOf(url) == UpTo(url[e..], QUERY)
  {
    FindIs(url, SEP, i);
    var rest := url[i + 3..];
    var n := e - i - 3;
    assert forall k :: 0 <= k < |rest| ==> rest[k] == url[i + 3 + k];
    assert forall j: nat :: Occurs(rest, "/", j) ==> rest[j] == rest[j..j + 1][0];
    assert rest[n..n + 1] == "/";
    FindIs(rest, "/", n);
    assert rest[n..] == url[e..];
  }

  lemma PathOfRelative(path: string, query: string)
    requires !Contains(path + query, SEP) && Clean(path) && (query != [] ==> query[0] in QUERY)
    ensures PathOf(path + query) == path
  {
    UpToIs(path + query, QUERY, |path|);
  }

  // ----- the requests -----

  /** A GET; the one header there may be is the bearer token. */
  datatype Request = Request(url: string, bearer: Option<string>)

  function RequestFor(playlist: string, jwt: Option<string>, segment: string): Request {
    var url := JoinUrl(playlist, segment);
    Request(url, if jwt.Some? && SameOrigin(url, playlist) then jwt else None)
  }

  /** Where the segment's own text says it lives, resolved against a playlist of that origin. */
  function HomeOf(o: Origin, segment: string): Origin {
    if OriginOf(segment).Some? then OriginOf(segment).value else o
  }

  /** A URL with an origin that no query cuts into. */
  predicate CleanUrl(url: string) {
    OriginOf(url).Some? && Clean(OriginOf(url).value.scheme) && Clean(OriginOf(url).value.authority)
  }

  /** The request goes to the segment's home, with the token exactly if that is `o`. */
  predicate GoesHome(o: Origin, jwt: Option<string>, segment: string, r: Request) {
    && OriginOf(r.url) == Some(HomeOf(o, segment))
    && r.bearer == if HomeOf(o, segment) == o then jwt else None
  }

  /**
   With a clean playlist URL, every request goes to the origin its segment names or else the playlist's, and
   carries the token exactly when that is the playlist's.
   */
  lemma BearerExactly(playlist: string, jwt: Option<string>, segment: string)
    requires CleanUrl(playlist)
    ensures GoesHome(OriginOf(playlist).value, jwt, segment, RequestFor(playlist, jwt, segment))
  {
    if !Contains(segment, SEP) {
      if segment != [] && segment[0] == '/' {
        AbsolutePathStays(playlist, segment);
      } else {
        RelativeStaysExactlyWhen(playlist, segment);
      }
    }
  }

  lemma SepMeans(s: string, j: nat)
    ensures Occurs(s, SEP, j) <==> j + 3 <= |s| && s[j] == ':' && s[j + 1] == '/' && s[j + 2] == '/'
  {
    if j + 3 <= |s| {
      assert s[j..j + 3] == [s[j], s[j + 1], s[j + 2]];
    }
  }

  /** The first `d` chars end in half a `://`, which a joining slash completes. */
  predicate HalfSeparator(s: string, d: nat)
    requires d <= |s|
  {
    d >= 2 && s[d - 2] == ':' && s[d - 1] == '/'
  }

  lemma CutSchemeOrigin(playlist: string, i: nat, d: nat, segment: string)
    requires Find(playlist, SEP) == Some(i) && d < i
    requires !Contains(segment, SEP) && !(segment != [] && segment[0] == '/')
    ensures OriginOf(playlist[..d] + "/" + segment).Some? <==> HalfSeparator(playlist, d)
  {
    var url := playlist[..d] + "/" + segment;
    if HalfSeparator(playlist, d) {
      SepMeans(url, d - 2);
    }
    forall j: nat | Occurs(url, SEP, j)
      ensures HalfSeparator(playlist, d)
    {
      SepMeans(url, j);
      if j + 3 <= d {
        SepMeans(playlist, j);
      } else if j > d {
        SepMeans(segment, j - d - 1);
      }
    }
  }

  /** The scheme holds no `?` or `#`, or the first one cuts it to half a `://`. */
  predicate SchemeHolds(scheme: string) {
    Clean(scheme) || HalfSeparator(scheme, |UpTo(scheme, QUERY)|)
  }

  lemma CutScheme(playlist: string, i: nat, e: nat)
    requires Splits(playlist, i, e)
    ensures var q := |UpTo(playlist, QUERY)|;
            SchemeHolds(playlist[..i]) <==> q >= i || HalfSeparator(playlist, q)
  {
    var q := |UpTo(playlist, QUERY)|;
    var scheme := playlist[..i];
    if q < i {
      UpToIs(scheme, QUERY, q);
      assert scheme[q] in QUERY;
    }
  }

  lemma RelativeHasOrigin(playlist: string, segment: string)
    requires OriginOf(playlist).Some? && !Contains(segment, SEP) && !(segment != [] && segment[0] == '/')
    ensures OriginOf(JoinUrl(playlist, segment)).Some? <==> SchemeHolds(OriginOf(playlist).value.scheme)
  {
    var i, e := SplitsOf(playlist);
    assert |playlist[..Find(playlist, SEP).value]| == i;
    QueryStarts(playlist, i, e);
    CutScheme(playlist, i, e);
    var d := DirectoryEnds(playlist, i, e);
    assert JoinUrl(playlist, segment) == playlist[..d] + "/" + segment;
    if d < i {
      CutSchemeOrigin(playlist, i, d, segment);
    } else {
      OriginBehind(playlist, i, e, d, segment);
    }
  }

  /**
   For a relative name and any playlist URL with a `://`, the token goes to the playlist's origin and nowhere else
   exactly when the scheme holds no `?` or `#`, or is cut by it to half a `://`. Otherwise the resolved name has
   no origin at all, and the token goes with it.
   */
  lemma TokenOnOriginExactlyWhen(playlist: string, jwt: string, segment: string)
    requires OriginOf(playlist).Some? && !Contains(segment, SEP) && !(segment != [] && segment[0] == '/')
    ensures SchemeHolds(OriginOf(playlist).value.scheme) <==>
            var r := RequestFor(playlist, Some(jwt), segment);
            r.bearer == if OriginOf(r.url) == OriginOf(playlist) then Some(jwt) else None
  {
    RelativeHasOrigin(playlist, segment);
  }

  /** What a request for a segment promises. */
  predicate Serves(playlist: string, jwt: Option<string>, segment: string, r: Request) {
    r.url == JoinUrl(playlist, segment) && (CleanUrl(playlist) ==> GoesHome(OriginOf(playlist).value, jwt, segment, r))
  }

  /** So a request that serves a segment goes to what the segment names, path and all. */
  lemma ServesTarget(u: PlaylistUrl, jwt: Option<string>, segment: string, r: Request)
    requires WellFormed(u) && Serves(UrlOf(u), jwt, segment, r)
    ensures r.url == Target(u, segment)
  {
    ResolvesToTarget(u, segment);
  }

  lemma RequestServes(playlist: string, jwt: Option<string>, segment: string)
    ensures Serves(playlist, jwt, segment, RequestFor(playlist, jwt, segment))
  {
    if CleanUrl(playlist) {
      BearerExactly(playlist, jwt, segment);
    }
  }

  /** A playlist URL without `://` puts the token on every request, wherever the segment says it lives. */
  lemma NoOriginSendsToken(playlist: string, jwt: Option<string>, segment: string)
    requires OriginOf(playlist).None?
    ensures RequestFor(playlist, jwt, segment) == Request(segment, jwt)
  {
  }

  // ----- URLs that leave the origin -----

  lemma CutAuthorityOrigin(playlist: string, i: nat, e: nat, q: nat, segment: string)
    requires Splits(playlist, i, e) && i + 3 <= q < e && |UpTo(playlist, QUERY)| == q
    requires !Contains(segment, SEP) && !(segment != [] && segment[0] == '/')
    ensures OriginOf(playlist) == Some(Origin(playlist[..i], playlist[i + 3..e]))
    ensures OriginOf(JoinUrl(playlist, segment)) == Some(Origin(playlist[..i], playlist[i + 3..q]))
  {
    OriginIs(playlist, i, e);
    FindIs(playlist, SEP, i);
    var d := DirectoryEnds(playlist, i, e);
    OriginBehind(playlist, i, e, d, segment);
  }

  lemma AuthoritySplits(playlist: string)
    requires playlist == "s://h?q"
    ensures Splits(playlist, 1, 7) && |UpTo(playlist, QUERY)| == 5
  {
    SepMeans(playlist, 1);
    SepMeans(playlist, 0);
    UpToIs(playlist, QUERY, 5);
  }

  /** A `?` in the authority: the name resolves to `s://h`, not to the playlist's `s://h?q`, and gets no token. */
  lemma QueryInAuthorityLeaves(playlist: string, segment: string, jwt: string)
    requires playlist == "s://h?q" && segment == "a"
    ensures OriginOf(playlist) == Some(Origin("s", "h?q"))
    ensures OriginOf(JoinUrl(playlist, segment)) == Some(Origin("s", "h"))
    ensures RequestFor(playlist, Some(jwt), segment).bearer == None
  {
    AuthoritySplits(playlist);
    OneCharHoldsNoSep(segment);
    var scheme, authority, cut := playlist[..1], playlist[4..7], playlist[4..5];
    assert scheme == "s" && authority == "h?q" && cut == "h";
    CutAuthorityOrigin(playlist, 1, 7, 5, segment);
    OtherOriginNoToken(playlist, jwt, segment, authority, cut);
  }

  lemma OtherOriginNoToken(playlist: string, jwt: string, segment: string, authority: string, other: string)
    requires OriginOf(playlist).Some? && OriginOf(playlist).value.authority == authority && |other| != |authority|
    requires OriginOf(JoinUrl(playlist, segment)).Some? && OriginOf(JoinUrl(playlist, segment)).value.authority == other
    ensures RequestFor(playlist, Some(jwt), segment).bearer == None
  {
  }

  lemma SchemeSplits(playlist: string)
    requires playlist == "a?b://h"
    ensures Splits(playlist, 3, 7) && !SchemeHolds(playlist[..3])
  {
    SepMeans(playlist, 3);
    forall j: nat | j < 3 ensures !Occurs(playlist, SEP, j) {
      SepMeans(playlist, j);
    }
    var scheme := playlist[..3];
    assert scheme[1] == '?';
    UpToIs(scheme, QUERY, 1);
  }

  /** A `?` in the scheme: the name resolves to `a/c`, which has no origin, and gets the token. */
  lemma QueryInSchemeSendsToken(playlist: string, segment: string, jwt: string)
    requires playlist == "a?b://h" && segment == "c"
    ensures OriginOf(playlist) == Some(Origin("a?b", "h"))
    ensures OriginOf(JoinUrl(playlist, segment)).None?
    ensures RequestFor(playlist, Some(jwt), segment).bearer == Some(jwt)
  {
    SchemeSplits(playlist);
    OriginIs(playlist, 3, 7);
    assert playlist[..3] == "a?b" && playlist[6..7] == "h";
    OneCharHoldsNoSep(segment);
    RelativeHasOrigin(playlist, segment);
  }

  lemma OneCharHoldsNoSep(segment: string)
    requires |segment| == 1
    ensures !Contains(segment, SEP)
  {
  }
}
