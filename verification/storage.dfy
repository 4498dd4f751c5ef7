/** Object keys, how relative references resolve against them, and the store
    (backend/libs/pipeline/storage.py; references resolve as section 5.2 of RFC 3986 says for a path with
    no dots). */
module Storage {
  import opened Text
  import opened Ladder

  predicate NoSlash(s: string) {
    '/' !in s
  }

  // ------------------------------------------------------------------------- builders

  function OwnerPrefix(owner: string): string {
    "users/" + owner
  }

  function VideoPrefix(owner: string, video: string): string {
    OwnerPrefix(owner) + "/videos/" + video
  }

  function RenditionKey(owner: string, video: string, rendition: string): string {
    VideoPrefix(owner, video) + "/renditions/" + rendition + ".mp4"
  }

  function HlsPlaylistKey(owner: string, video: string, rendition: string): string {
    VideoPrefix(owner, video) + "/hls/" + rendition + "/playlist.m3u8"
  }

  function HlsSegmentKey(owner: string, video: string, rendition: string, filename: string): string {
    VideoPrefix(owner, video) + "/hls/" + rendition + "/" + filename
  }

  function HlsMasterKey(owner: string, video: string): string {
    VideoPrefix(owner, video) + "/hls/master.m3u8"
  }

  function ScratchKey(owner: string, video: string, name: string): string {
    "tmp/" + owner + "/" + video + "/" + name
  }

  predicate Owns(owner: string, key: string) {
    StartsWith(key, OwnerPrefix(owner) + "/") || StartsWith(key, "tmp/" + owner + "/")
  }

  // ------------------------------------------------------- the objects of one video

  /** The objects the transcode and packaging workers write for one video; the Parts are scratch. */
  datatype Key =
    | Mp4(rendition: string) | Playlist(rendition: string) | Segment(rendition: string, name: string) | Master
    | Mp4Part(rendition: string) | PlaylistPart(rendition: string) | MasterPart

  function KeyText(owner: string, video: string, key: Key): string {
    match key
    case Mp4(r) => RenditionKey(owner, video, r)
    case Playlist(r) => HlsPlaylistKey(owner, video, r)
    case Segment(r, name) => HlsSegmentKey(owner, video, r, name)
    case Master => HlsMasterKey(owner, video)
    case Mp4Part(r) => ScratchKey(owner, video, r + ".part")
    case PlaylistPart(r) => ScratchKey(owner, video, r + ".playlist.part")
    case MasterPart => ScratchKey(owner, video, "master.m3u8.part")
  }

  /** What the encoder names a segment. */
  predicate IsSegmentName(name: string) {
    NoSlash(name) && EndsWith(name, ".ts")
  }

  predicate IsKey(key: Key) {
    match key
    case Master => true
    case MasterPart => true
    case Segment(r, name) => IsRendition(r) && IsSegmentName(name)
    case _ => IsRendition(key.rendition)
  }

  // -------------------------------------------------------------- keys never collide

  /** The base up to its last slash. */
  function DirOf(base: string): string {
    if base == "" || base[|base| - 1] == '/' then base else DirOf(base[..|base| - 1])
  }

  lemma {:induction false} DirOfFile(folder: string, file: string)
    requires NoSlash(file)
    ensures DirOf(folder + "/" + file) == folder + "/"
  {
    var base := folder + "/" + file;
    if file != "" {
      assert base[..|base| - 1] == folder + "/" + file[..|file| - 1];
      DirOfFile(folder, file[..|file| - 1]);
    } else {
      assert base == folder + "/";
    }
  }

  lemma LastSlash(a: string, b: string, c: string, d: string)
    requires a + "/" + b == c + "/" + d && NoSlash(b) && NoSlash(d)
    ensures a == c && b == d
  {
    DirOfFile(a, b);
    DirOfFile(c, d);
    Unsuffixed(a, c, "/");
    assert (a + "/" + b)[|a| + 1..] == b && (c + "/" + d)[|c| + 1..] == d;
  }

  lemma Unsuffixed(a: string, b: string, suffix: string)
    requires a + suffix == b + suffix
    ensures a == b
  {
    assert (a + suffix)[..|a|] == a && (b + suffix)[..|b|] == b;
  }

  lemma RenditionNoSlash(r: string)
    requires IsRendition(r)
    ensures NoSlash(r) && NoSlash(r + ".mp4") && NoSlash(r + ".part") && NoSlash(r + ".playlist.part")
  {
    assert forall i :: 0 <= i < |r| - 1 ==> r[i] == r[..|r| - 1][i];
  }

  /** A key's last component. */
  function LastPart(key: Key): string {
    match key
    case Mp4(r) => r + ".mp4"
    case Playlist(_) => "playlist.m3u8"
    case Segment(_, name) => name
    case Master => "master.m3u8"
    case Mp4Part(r) => r + ".part"
    case PlaylistPart(r) => r + ".playlist.part"
    case MasterPart => "master.m3u8.part"
  }

  /** Everything before a key's last slash. */
  function Folder(owner: string, video: string, key: Key): string {
    match key
    case Mp4(_) => VideoPrefix(owner, video) + "/renditions"
    case Playlist(r) => VideoPrefix(owner, video) + "/hls/" + r
    case Segment(r, _) => VideoPrefix(owner, video) + "/hls/" + r
    case Master => VideoPrefix(owner, video) + "/hls"
    case _ => "tmp/" + owner + "/" + video
  }

  /** Where the slash falls in a literal does not matter. */
  lemma MiddleSlash(p: string, whole: string, left: string, a: string, b: string)
    ensures whole == left + "/" ==> p + whole + a + b == p + left + "/" + (a + b)
    ensures whole == left + "/" + a ==> p + whole + b == p + left + "/" + (a + b)
  {
  }

  lemma LastPartNoSlash(key: Key)
    requires IsKey(key)
    ensures NoSlash(LastPart(key))
  {
    if key != Master && key != MasterPart {
      RenditionNoSlash(key.rendition);
    }
  }

  lemma KeySplits(owner: string, video: string, key: Key)
    requires IsKey(key)
    ensures KeyText(owner, video, key) == Folder(owner, video, key) + "/" + LastPart(key)
  {
    match key
    case Mp4(r) => Mp4Splits(VideoPrefix(owner, video), r);
    case Playlist(r) => PlaylistSplits(VideoPrefix(owner, video), r);
    case Master => MasterSplits(VideoPrefix(owner, video));
    case _ =>
  }

  lemma Mp4Splits(p: string, r: string)
    ensures p + "/renditions/" + r + ".mp4" == p + "/renditions" + "/" + (r + ".mp4")
  {
    MiddleSlash(p, "/renditions/", "/renditions", r, ".mp4");
  }

  lemma PlaylistSplits(p: string, r: string)
    ensures p + "/hls/" + r + "/playlist.m3u8" == p + "/hls/" + r + "/" + "playlist.m3u8"
  {
    MiddleSlash(p + "/hls/" + r, "/playlist.m3u8", "", "playlist.m3u8", "");
  }

  lemma MasterSplits(p: string)
    ensures p + "/hls/master.m3u8" == p + "/hls" + "/" + "master.m3u8"
  {
    MiddleSlash(p, "/hls/master.m3u8", "/hls", "master.m3u8", "");
  }

  predicate SameKind(a: Key, b: Key) {
    match a
    case Mp4(_) => b.Mp4?
    case Playlist(_) => b.Playlist?
    case Segment(_, _) => b.Segment?
    case Master => b.Master?
    case Mp4Part(_) => b.Mp4Part?
    case PlaylistPart(_) => b.PlaylistPart?
    case MasterPart => b.MasterPart?
  }

  function LastChar(s: string): char
    requires s != ""
  {
    s[|s| - 1]
  }

  /** The last component tells what kind of object it is. */
  lemma LastPartTells(a: Key, b: Key)
    requires IsKey(a) && IsKey(b) && LastPart(a) == LastPart(b)
    ensures SameKind(a, b)
  {
    LastPartShape(a);
    LastPartShape(b);
  }

  lemma LastPartShape(key: Key)
    requires IsKey(key)
    ensures var s := LastPart(key);
            && 3 <= |s|
            && (key.Mp4? <==> LastChar(s) == '4')
            && (key.Segment? <==> LastChar(s) == 's')
            && (key.Playlist? || key.Master? <==> LastChar(s) == '8')
            && (key.Mp4Part? ==> |s| <= 10) && (key.PlaylistPart? ==> 18 <= |s|) && (key.MasterPart? ==> |s| == 16)
  {
    if key.Segment? {
      assert LastChar(key.name) == ".ts"[2];
    }
  }

  /** Two keys with one text are one key: of the same owner, of the same video, for the same object. The
      owner's name may hold anything; a video id holds no slash. */
  lemma KeysNeverCollide(owner1: string, video1: string, key1: Key, owner2: string, video2: string, key2: Key)
    requires IsKey(key1) && IsKey(key2) && NoSlash(video1) && NoSlash(video2)
    requires KeyText(owner1, video1, key1) == KeyText(owner2, video2, key2)
    ensures owner1 == owner2 && video1 == video2 && key1 == key2
  {
    KeySplits(owner1, video1, key1);
    KeySplits(owner2, video2, key2);
    LastPartNoSlash(key1);
    LastPartNoSlash(key2);
    LastSlash(Folder(owner1, video1, key1), LastPart(key1), Folder(owner2, video2, key2), LastPart(key2));
    LastPartTells(key1, key2);
    SameFolder(owner1, video1, key1, owner2, video2, key2);
    SameLastPart(key1, key2);
  }

  lemma SameVideo(owner1: string, video1: string, owner2: string, video2: string)
    requires NoSlash(video1) && NoSlash(video2) && VideoPrefix(owner1, video1) == VideoPrefix(owner2, video2)
    ensures owner1 == owner2 && video1 == video2
  {
    MiddleSlash(OwnerPrefix(owner1), "/videos/", "/videos", video1, "");
    MiddleSlash(OwnerPrefix(owner2), "/videos/", "/videos", video2, "");
    assert video1 + "" == video1 && video2 + "" == video2;
    LastSlash(OwnerPrefix(owner1) + "/videos", video1, OwnerPrefix(owner2) + "/videos", video2);
    LastSlash(OwnerPrefix(owner1), "videos", OwnerPrefix(owner2), "videos") by {
      assert OwnerPrefix(owner1) + "/" + "videos" == OwnerPrefix(owner1) + "/videos";
      assert OwnerPrefix(owner2) + "/" + "videos" == OwnerPrefix(owner2) + "/videos";
    }
    assert OwnerPrefix(owner1)[6..] == owner1 && OwnerPrefix(owner2)[6..] == owner2;
  }

  lemma SameFolder(owner1: string, video1: string, a: Key, owner2: string, video2: string, b: Key)
    requires IsKey(a) && IsKey(b) && SameKind(a, b) && NoSlash(video1) && NoSlash(video2)
    requires Folder(owner1, video1, a) == Folder(owner2, video2, b)
    ensures owner1 == owner2 && video1 == video2
    ensures a.Playlist? || a.Segment? ==> a.rendition == b.rendition
  {
    var p1, p2 := VideoPrefix(owner1, video1), VideoPrefix(owner2, video2);
    if a.Playlist? || a.Segment? {
      RenditionNoSlash(a.rendition);
      RenditionNoSlash(b.rendition);
      MiddleSlash(p1, "/hls/", "/hls", a.rendition, "");
      MiddleSlash(p2, "/hls/", "/hls", b.rendition, "");
      assert a.rendition + "" == a.rendition && b.rendition + "" == b.rendition;
      LastSlash(p1 + "/hls", a.rendition, p2 + "/hls", b.rendition);
      Unsuffixed(p1, p2, "/hls");
      SameVideo(owner1, video1, owner2, video2);
    } else if a.Mp4? {
      Unsuffixed(p1, p2, "/renditions");
      SameVideo(owner1, video1, owner2, video2);
    } else if a.Master? {
      Unsuffixed(p1, p2, "/hls");
      SameVideo(owner1, video1, owner2, video2);
    } else {
      LastSlash("tmp/" + owner1, video1, "tmp/" + owner2, video2);
      assert ("tmp/" + owner1)[4..] == owner1 && ("tmp/" + owner2)[4..] == owner2;
    }
  }

  lemma SameLastPart(a: Key, b: Key)
    requires SameKind(a, b) && LastPart(a) == LastPart(b)
    requires a.Playlist? || a.Segment? ==> a.rendition == b.rendition
    ensures a == b
  {
    match a
    case Mp4(r) => Unsuffixed(r, b.rendition, ".mp4");
    case Mp4Part(r) => Unsuffixed(r, b.rendition, ".part");
    case PlaylistPart(r) => Unsuffixed(r, b.rendition, ".playlist.part");
    case _ =>
  }

  predicate IsScratch(key: Key) {
    key.Mp4Part? || key.PlaylistPart? || key.MasterPart?
  }

  lemma FolderStarts(owner: string, video: string, key: Key)
    ensures exists rest :: Folder(owner, video, key) == OwnersArea(owner, key) + rest
  {
    var prefix := OwnersArea(owner, key);
    var folder := Folder(owner, video, key);
    assert folder[..|prefix|] == prefix;
    assert folder == prefix + folder[|prefix|..];
  }

  function OwnersArea(owner: string, key: Key): string {
    if IsScratch(key) then "tmp/" + owner + "/" else OwnerPrefix(owner) + "/"
  }

  lemma KeyStarts(owner: string, video: string, key: Key)
    requires IsKey(key)
    ensures StartsWith(KeyText(owner, video, key), OwnersArea(owner, key))
  {
    var prefix := OwnersArea(owner, key);
    KeySplits(owner, video, key);
    FolderStarts(owner, video, key);
    assert KeyText(owner, video, key)[..|prefix|] == prefix;
  }

  /** Every key belongs to its owner, and is scratch exactly when it is under `tmp/`. */
  lemma KeysAreOwned(owner: string, video: string, key: Key)
    requires IsKey(key)
    ensures Owns(owner, KeyText(owner, video, key))
    ensures StartsWith(KeyText(owner, video, key), "tmp/") <==> IsScratch(key)
  {
    var text, prefix := KeyText(owner, video, key), OwnersArea(owner, key);
    KeyStarts(owner, video, key);
    assert text[0] == prefix[0];
    assert IsScratch(key) ==> text[..4] == prefix[..4] == "tmp/";
  }

  function Area(key: Key): string {
    if IsScratch(key) then "tmp/" else "users/"
  }

  lemma AreaThenOwner(owner: string, video: string, key: Key) returns (rest: string)
    requires IsKey(key)
    ensures KeyText(owner, video, key) == Area(key) + (owner + "/" + rest)
  {
    KeyStarts(owner, video, key);
    OwnersPart(owner, key);
    rest := SplitAfter(Area(key), owner + "/", KeyText(owner, video, key));
  }

  lemma OwnersPart(owner: string, key: Key)
    ensures OwnersArea(owner, key) == Area(key) + (owner + "/")
  {
  }

  lemma SplitAfter(area: string, name: string, text: string) returns (rest: string)
    requires StartsWith(text, area + name)
    ensures text == area + (name + rest)
  {
    rest := text[|area + name|..];
    assert text == area + name + rest;
  }

  /** Whether one of two names that a slash ends begins the other. */
  lemma OneBegins(a: string, b: string, rest: string)
    ensures |a| <= |b| ==> (StartsWith(b + "/" + rest, a + "/") <==> StartsWith(b + "/", a + "/"))
    ensures |a| > |b| && StartsWith(b + "/" + rest, a + "/") ==> StartsWith(a, b + "/")
    ensures NoSlash(b) && |a| <= |b| && StartsWith(b + "/", a + "/") ==> a == b
    ensures NoSlash(a) ==> !(|a| > |b| && StartsWith(a, b + "/"))
  {
    var text := b + "/" + rest;
    assert text[..|b| + 1] == b + "/";
    if |a| <= |b| {
      assert text[..|a| + 1] == (b + "/")[..|a| + 1];
      if StartsWith(b + "/", a + "/") {
        assert (b + "/")[|a|] == (a + "/")[|a|] == '/';
        assert a == (a + "/")[..|a|] == (b + "/")[..|a|] == b[..|a|];
      }
    } else {
      if StartsWith(text, a + "/") {
        assert a == (a + "/")[..|a|] == text[..|a|];
        assert a[..|b| + 1] == text[..|b| + 1];
      }
      if StartsWith(a, b + "/") {
        assert a[|b|] == (b + "/")[|b|];
      }
    }
  }

  lemma AreasDiffer(area: string, other: string, a: string, b: string)
    requires area != other && {area, other} == {"tmp/", "users/"}
    ensures !StartsWith(area + a, other + b)
  {
    assert (area + a)[0] == area[0] && (other + b)[0] == other[0];
  }

  lemma SameArea(area: string, a: string, b: string)
    ensures StartsWith(area + a, area + b) <==> StartsWith(a, b)
  {
    if |b| <= |a| {
      assert (area + a)[..|area + b|] == area + a[..|b|];
      assert (area + b)[|area|..] == b && (area + a[..|b|])[|area|..] == a[..|b|];
    }
  }

  /** Nobody else owns a key: whoever passes the check for one has a name that begins the owner's, or is begun
      by it, at a slash; so where neither name holds a slash, exactly the owner passes. */
  lemma OnlyTheOwnerOwns(asker: string, owner: string, video: string, key: Key)
    requires IsKey(key)
    ensures |asker| <= |owner| ==> (Owns(asker, KeyText(owner, video, key)) <==> StartsWith(owner + "/", asker + "/"))
    ensures |asker| > |owner| && Owns(asker, KeyText(owner, video, key)) ==> StartsWith(asker, owner + "/")
    ensures NoSlash(asker) && NoSlash(owner) ==> (Owns(asker, KeyText(owner, video, key)) <==> asker == owner)
  {
    var rest := AreaThenOwner(owner, video, key);
    var body, name := owner + "/" + rest, asker + "/";
    assert OwnerPrefix(asker) + "/" == "users/" + name && "tmp/" + asker + "/" == "tmp/" + name;
    SameArea(Area(key), body, name);
    AreasDiffer(Area(key), if IsScratch(key) then "users/" else "tmp/", body, name);
    OneBegins(asker, owner, rest);
  }

  // -------------------------------------------------------------- relative references

  function Resolve(base: string, reference: string): string {
    DirOf(base) + reference
  }

  /** A player that resolves the master playlist's references, and then a playlist's, arrives at the keys
      the workers wrote. */
  lemma ReferencesResolve(owner: string, video: string, r: string, name: string)
    requires IsRendition(r)
    ensures Resolve(HlsMasterKey(owner, video), r + "/playlist.m3u8") == HlsPlaylistKey(owner, video, r)
    ensures Resolve(HlsPlaylistKey(owner, video, r), name) == HlsSegmentKey(owner, video, r, name)
  {
    KeySplits(owner, video, Master);
    DirOfFile(Folder(owner, video, Master), "master.m3u8");
    KeySplits(owner, video, Playlist(r));
    DirOfFile(Folder(owner, video, Playlist(r)), "playlist.m3u8");
    var p := VideoPrefix(owner, video);
    assert p + "/hls" + "/" + (r + "/playlist.m3u8") == p + "/hls/" + r + "/playlist.m3u8";
    assert p + "/hls/" + r + "/" + name == HlsSegmentKey(owner, video, r, name);
  }

  // ------------------------------------------------------------------------ the store

  /** The bucket, by key text or by what a text stands for. A promotion copies, then deletes: between the
      two both keys hold the content. */
  class ObjectStore<K(==), Content> {
    var objects: map<K, Content>

    constructor ()
      ensures objects == map[]
    {
      objects := map[];
    }

    method Head(key: K) returns (found: Option<Content>)
      ensures found == if key in objects then Some(objects[key]) else None
    {
      found := if key in objects then Some(objects[key]) else None;
    }

    method Upload(content: Content, key: K)
      modifies this
      ensures objects == old(objects)[key := content]
    {
      objects := objects[key := content];
    }

    /** False when there is nothing to copy, which the client reports as an error. */
    method Copy(source: K, target: K) returns (ok: bool)
      modifies this
      ensures ok == (source in old(objects))
      ensures objects == if ok then old(objects)[target := old(objects)[source]] else old(objects)
    {
      ok := source in objects;
      if ok {
        objects := objects[target := objects[source]];
      }
    }

    method Delete(key: K)
      modifies this
      ensures objects == old(objects) - {key}
    {
      objects := objects - {key};
    }

    method Promote(scratch: K, final: K) returns (ok: bool)
      requires scratch != final
      modifies this
      ensures ok == (scratch in old(objects))
      ensures !ok ==> objects == old(objects)
      ensures ok ==> final in objects && objects[final] == old(objects)[scratch] && scratch !in objects
      ensures forall key :: key != scratch && key != final ==>
                (key in objects <==> key in old(objects)) && (key in objects ==> objects[key] == old(objects)[key])
    {
      ok := Copy(scratch, final);
      if ok {
        Delete(scratch);
      }
    }
  }

  /** The layout of the bucket, spelled out. */
  lemma KeysSpelled(o: string, v: string, r: string, name: string)
    ensures KeyText(o, v, Mp4(r)) == "users/" + o + "/videos/" + v + "/renditions/" + r + ".mp4"
    ensures KeyText(o, v, Playlist(r)) == "users/" + o + "/videos/" + v + "/hls/" + r + "/playlist.m3u8"
    ensures KeyText(o, v, Segment(r, name)) == "users/" + o + "/videos/" + v + "/hls/" + r + "/" + name
    ensures KeyText(o, v, Master) == "users/" + o + "/videos/" + v + "/hls/master.m3u8"
    ensures ScratchKey(o, v, name) == "tmp/" + o + "/" + v + "/" + name
  {
  }
}
