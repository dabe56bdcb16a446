/** Fixed-size `char` buffers holding NUL-terminated C strings, and the two library
    routines the prompt code writes them with. */
module CBuffer {
  import opened Strtok

  /** The C string a buffer holds: everything before its first NUL. */
  function CStr(buf: seq<char>): (s: string)
    ensures '\0' !in s && s <= buf
    ensures |s| < |buf| ==> buf[|s|] == '\0'
  {
    var n := Span(buf, '\0');
    assert '\0' !in buf[..n] by {
      forall i | 0 <= i < n ensures buf[..n][i] != '\0' { }
    }
    buf[..n]
  }

  /** A NUL at `k` with none before it ends the C string there. */
  lemma CStrAt(buf: seq<char>, k: nat)
    requires k < |buf| && buf[k] == '\0' && '\0' !in buf[..k]
    ensures CStr(buf) == buf[..k]
  {
  }

  /** `strlen`: scans for the terminating NUL. */
  method StrLen(buf: array<char>) returns (n: nat)
    requires '\0' in buf[..]
    ensures n == |CStr(buf[..])| && n < buf.Length
  {
    n := 0;
    while buf[n] != '\0'
      invariant n < buf.Length
      invariant '\0' !in buf[..n]
      invariant '\0' in buf[n..]
      decreases buf.Length - n
    {
      assert buf[n..] == [buf[n]] + buf[n + 1..];
      assert buf[..n + 1] == buf[..n] + [buf[n]];
      n := n + 1;
    }
    CStrAt(buf[..], n);
  }

  /** `strncpy(dst, src, count)` from a NUL-free source: the first `count` bytes
      become the source, cut or padded with NULs; the rest of the buffer is untouched. */
  method StrNCpy(dst: array<char>, src: string, count: nat)
    requires count <= dst.Length && '\0' !in src
    modifies dst
    ensures forall k :: 0 <= k < count ==> dst[k] == if k < |src| then src[k] else '\0'
    ensures forall k :: count <= k < dst.Length ==> dst[k] == old(dst[k])
  {
    var k := 0;
    while k < count
      invariant k <= count
      invariant forall j :: 0 <= j < k ==> dst[j] == if j < |src| then src[j] else '\0'
      invariant forall j :: k <= j < dst.Length ==> dst[j] == old(dst[j])
    {
      dst[k] := if k < |src| then src[k] else '\0';
      k := k + 1;
    }
  }

  /** `strcat(dst, s)`: appends `s` to the C string in `dst`; the result and its NUL
      must fit the buffer. */
  method StrCat(dst: array<char>, s: string)
    requires '\0' in dst[..] && '\0' !in s
    requires |CStr(dst[..])| + |s| < dst.Length
    modifies dst
    ensures '\0' in dst[..]
    ensures CStr(dst[..]) == CStr(old(dst[..])) + s
  {
    var n := StrLen(dst);
    ghost var before := CStr(dst[..]);
    assert dst[..n] == before;
    var k := 0;
    while k < |s|
      invariant k <= |s|
      invariant dst[..n] == before
      invariant forall j :: 0 <= j < k ==> dst[n + j] == s[j]
    {
      dst[n + k] := s[k];
      k := k + 1;
    }
    dst[n + |s|] := '\0';
    assert dst[..n + |s|] == before + s;
    assert '\0' !in dst[..n + |s|];
    CStrAt(dst[..], n + |s|);
  }
}
