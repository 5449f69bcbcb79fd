/** The watch-path filter: normalising the watched path (src/ride.c, ride_stat) and
    the byte-prefix test run in the kernel hook (src/ride.bpf.c, in_watch_path). */
module WatchPath {
  import opened Requests

  const SLASH: Byte := 47
  const SIZE_T: int := 0x1_0000_0000_0000_0000

  /** The filter's read-only configuration. */
  datatype Watch = Watch(buf: Bytes, len: nat, dir: bool)

  /** An `int` compared with a `size_t` is converted to it first. */
  function ToSizeT(n: int): nat
    requires -0x8000_0000 <= n < 0x8000_0000
  {
    if n < 0 then n + SIZE_T else n
  }

  predicate Accepts(w: Watch, path: Bytes, plen: int)
    requires w.len <= |w.buf| == |path| == MAX_FILENAME_LEN
    requires -0x8000_0000 <= plen < 0x8000_0000
  {
    && w.len <= ToSizeT(plen)
    && (!w.dir ==> ToSizeT(plen) == w.len)
    && path[..w.len] == w.buf[..w.len]
  }

  method InWatchPath(w: Watch, path: Bytes, plen: int) returns (ok: bool)
    requires w.len <= |w.buf| == |path| == MAX_FILENAME_LEN
    requires -0x8000_0000 <= plen < 0x8000_0000
    ensures ok <==> Accepts(w, path, plen)
  {
    if ToSizeT(plen) < w.len || (!w.dir && w.len != ToSizeT(plen)) {
      return false;
    }
    var i := 0;
    while i < w.len
      invariant i <= w.len
      invariant path[..i] == w.buf[..i]
    {
      if path[i] != w.buf[i] {
        assert path[..w.len][i] != w.buf[..w.len][i];
        return false;
      }
      i := i + 1;
    }
    ok := true;
  }

  /** ride_stat once stat and realpath have succeeded: `abspath` is the canonical path
      without its terminator.  An over-long directory is reported and used regardless. */
  method Normalise(buf: array<Byte>, abspath: Bytes, dir: bool) returns (ok: bool, len: nat)
    requires buf.Length == MAX_FILENAME_LEN
    modifies buf
    ensures ok <==> |abspath| <= MAX_FILENAME_LEN - 1
    ensures ok ==> len == |abspath| + (if dir then 1 else 0) <= MAX_FILENAME_LEN
    ensures ok ==> buf[..len] == abspath + if dir then [SLASH] else []
    ensures !ok ==> buf[..] == old(buf[..])
  {
    var pathlen := |abspath|;
    len := 0;
    if pathlen > MAX_FILENAME_LEN - 1 {
      return false, 0;
    }
    // strncpy: copy the string, then pad with zeros
    var i := 0;
    while i < MAX_FILENAME_LEN
      invariant i <= MAX_FILENAME_LEN
      invariant forall j | 0 <= j < i :: buf[j] == if j < pathlen then abspath[j] else 0
    {
      buf[i] := if i < pathlen then abspath[i] else 0;
      i := i + 1;
    }
    buf[MAX_FILENAME_LEN - 1] := 0;
    if dir {
      buf[pathlen] := SLASH;
      len := pathlen + 1;
    } else {
      len := pathlen;
    }
    ok := true;
  }

  // ---------------------------------------------------------------------------
  // Paths by component

  ghost predicate Component(c: Bytes) {
    c != [] && SLASH !in c
  }

  ghost predicate Components(cs: seq<Bytes>) {
    forall i | 0 <= i < |cs| :: Component(cs[i])
  }

  /** "/a/b" for [a, b]; empty for the root. */
  function Join(cs: seq<Bytes>): Bytes {
    if cs == [] then [] else [SLASH] + cs[0] + Join(cs[1..])
  }

  /** The canonical spelling of an absolute path. */
  function Render(cs: seq<Bytes>): Bytes {
    if cs == [] then [SLASH] else Join(cs)
  }

  ghost predicate StrictDescendant(dir: seq<Bytes>, file: seq<Bytes>) {
    |dir| < |file| && dir == file[..|dir|]
  }

  /** What the loader configures for a watched path. */
  ghost predicate Configures(w: Watch, watched: seq<Bytes>) {
    && w.len <= |w.buf| == MAX_FILENAME_LEN
    && w.buf[..w.len] == Render(watched) + if w.dir then [SLASH] else []
  }

  /** What the hook passes for an opened file: the path, a terminator, then any bytes. */
  ghost predicate Reports(path: Bytes, plen: int, file: seq<Bytes>) {
    && |path| == MAX_FILENAME_LEN
    && 0 <= plen == |Render(file)| < MAX_FILENAME_LEN
    && path[..plen] == Render(file)
  }

  /** Splitting at the first slash: two slash-free heads followed by slashes agree. */
  lemma HeadsAgree(a: Bytes, x: Bytes, b: Bytes, y: Bytes)
    requires SLASH !in a && SLASH !in b
    requires x != [] && x[0] == SLASH && (y == [] || y[0] == SLASH)
    requires a + x <= b + y
    ensures a == b && x <= y
  {
    var u, v := a + x, b + y;
    assert u[|a|] == SLASH;
    assert a == u[..|a|] == v[..|b|] == b;
    assert x == u[|a|..] && y == v[|b|..];
  }

  lemma JoinStart(cs: seq<Bytes>)
    ensures Join(cs) == [] || Join(cs)[0] == SLASH
    ensures (Join(cs) + [SLASH])[0] == SLASH
    ensures cs == [] <==> Join(cs) == []
  {
  }

  /** A directory's path followed by a slash is a byte prefix exactly of the paths of its
      strict descendants; in particular never of a sibling that merely extends its name. */
  lemma {:induction false} SlashPrefix(dir: seq<Bytes>, file: seq<Bytes>)
    requires Components(dir) && Components(file)
    ensures Join(dir) + [SLASH] <= Join(file) <==> StrictDescendant(dir, file)
    decreases |dir|
  {
    JoinStart(file);
    if dir == [] {
      assert Join(dir) + [SLASH] == [SLASH];
    } else if file != [] {
      var d', f' := dir[1..], file[1..];
      var x := Join(d') + [SLASH];
      SlashPrefix(d', f');
      JoinStart(d');
      JoinStart(f');
      assert Join(dir) + [SLASH] == [SLASH] + (dir[0] + x);
      assert Join(file) == [SLASH] + (file[0] + Join(f'));
      ConsPrefix(SLASH, dir[0] + x, file[0] + Join(f'));
      if Join(dir) + [SLASH] <= Join(file) {
        HeadsAgree(dir[0], x, file[0], Join(f'));
        assert dir == [dir[0]] + d' && file[..|dir|] == [file[0]] + f'[..|d'|];
      }
      if StrictDescendant(dir, file) {
        assert d' == f'[..|d'|];
        AppendPrefix(dir[0], x, Join(f'));
      }
    }
  }

  lemma ConsPrefix(b: Byte, s: Bytes, t: Bytes)
    ensures [b] + s <= [b] + t <==> s <= t
  {
    assert ([b] + s)[1..] == s && ([b] + t)[1..] == t;
    if [b] + s <= [b] + t {
      assert s == ([b] + t)[1..|s| + 1];
    }
  }

  lemma AppendPrefix(c: Bytes, s: Bytes, t: Bytes)
    requires s <= t
    ensures c + s <= c + t
  {
  }

  lemma {:induction false} JoinInjective(a: seq<Bytes>, b: seq<Bytes>)
    requires Components(a) && Components(b) && Join(a) == Join(b)
    ensures a == b
    decreases |a|
  {
    JoinStart(a);
    JoinStart(b);
    if a != [] {
      var a', b' := a[1..], b[1..];
      JoinStart(a');
      JoinStart(b');
      assert Join(a) == [SLASH] + (a[0] + Join(a'));
      assert Join(b) == [SLASH] + (b[0] + Join(b'));
      assert a[0] + Join(a') == Join(a)[1..] == Join(b)[1..] == b[0] + Join(b');
      assert (a[0] + Join(a')) + [SLASH] == a[0] + (Join(a') + [SLASH]);
      assert (b[0] + Join(b')) + [SLASH] == b[0] + (Join(b') + [SLASH]);
      HeadsAgree(a[0], Join(a') + [SLASH], b[0], Join(b') + [SLASH]);
      HeadsAgree(b[0], Join(b') + [SLASH], a[0], Join(a') + [SLASH]);
      assert Join(a') == (Join(a') + [SLASH])[..|Join(a')|];
      assert Join(b') == (Join(b') + [SLASH])[..|Join(b')|];
      JoinInjective(a', b');
    }
  }

  /** Directory watch, any watched path that fits (including one that leaves no room for
      a terminator): exactly the strict descendants, except that "/" accepts nothing. */
  lemma DirectoryWatch(w: Watch, watched: seq<Bytes>, path: Bytes, plen: int, file: seq<Bytes>)
    requires w.dir && Components(watched) && Configures(w, watched)
    requires file != [] && Components(file) && Reports(path, plen, file)
    ensures Accepts(w, path, plen) <==> watched != [] && StrictDescendant(watched, file)
  {
    var pat := w.buf[..w.len];
    assert Join(file) == path[..plen];
    if w.len <= plen {
      assert path[..w.len] == path[..plen][..w.len];
    }
    assert Accepts(w, path, plen) <==> pat <= Join(file);
    if watched == [] {
      assert Join(file)[1] == file[0][0];
    } else {
      SlashPrefix(watched, file);
    }
  }

  /** File watch: exactly the watched path. */
  lemma FileWatch(w: Watch, watched: seq<Bytes>, path: Bytes, plen: int, file: seq<Bytes>)
    requires !w.dir && watched != [] && Components(watched) && Configures(w, watched)
    requires file != [] && Components(file) && Reports(path, plen, file)
    ensures Accepts(w, path, plen) <==> watched == file
  {
    if Accepts(w, path, plen) {
      JoinInjective(watched, file);
    }
  }

  /** The documented meaning of a directory watch holds for every reported file if and
      only if the watched directory is not the root. */
  lemma RootIsTheException(w: Watch, watched: seq<Bytes>)
    requires w.dir && Components(watched) && Configures(w, watched)
    ensures (forall path, plen, file |
               file != [] && Components(file) && Reports(path, plen, file) ::
               Accepts(w, path, plen) <==> StrictDescendant(watched, file))
            <==> watched != []
  {
    forall path, plen, file | file != [] && Components(file) && Reports(path, plen, file)
      ensures Accepts(w, path, plen) <==> watched != [] && StrictDescendant(watched, file)
    {
      DirectoryWatch(w, watched, path, plen, file);
    }
    if watched == [] {
      var file := [[97]];
      var path := [SLASH, 97] + seq(126, _ => 0);
      assert Join(file) == [SLASH, 97];
      assert path[..2] == Render(file);
      assert Reports(path, 2, file) && StrictDescendant(watched, file);
    }
  }

  /** A failed path lookup reports a negative length.  The unsigned comparison lets it
      pass, so a directory watch then decides on whatever the buffer holds. */
  lemma NegativeLength(w: Watch, path: Bytes, plen: int)
    requires w.len <= |w.buf| == |path| == MAX_FILENAME_LEN
    requires -0x8000_0000 <= plen < 0
    ensures Accepts(w, path, plen) <==> w.dir && w.buf[..w.len] <= path
  {
    assert w.buf[..w.len] <= path <==> path[..w.len] == w.buf[..w.len];
  }
}
