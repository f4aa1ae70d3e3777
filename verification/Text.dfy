/** Text as the service measures it: lengths in UTF-8 bytes, trimmed of Unicode white space. */
module Text {
  function CharBytes(c: char): (n: nat)
    ensures 1 <= n <= 4
  {
    if c < '\U{80}' then 1 else if c < '\U{800}' then 2 else if c < '\U{10000}' then 3 else 4
  }

  function Bytes(s: string): nat {
    if s == "" then 0 else Bytes(s[..|s| - 1]) + CharBytes(s[|s| - 1])
  }

  predicate IsSpace(c: char) {
    || '\U{9}' <= c <= '\U{D}' || c == ' ' || c == '\U{85}' || c == '\U{A0}' || c == '\U{1680}'
    || '\U{2000}' <= c <= '\U{200A}' || c == '\U{2028}' || c == '\U{2029}' || c == '\U{202F}'
    || c == '\U{205F}' || c == '\U{3000}'
  }

  predicate IsControl(c: char) {
    c < ' ' || '\U{7F}' <= c <= '\U{9F}'
  }

  function TrimStart(s: string): (t: string)
    ensures t == "" || !IsSpace(t[0])
  {
    if s != "" && IsSpace(s[0]) then TrimStart(s[1..]) else s
  }

  function TrimEnd(s: string): (t: string)
    ensures t == "" || !IsSpace(t[|t| - 1])
  {
    if s != "" && IsSpace(s[|s| - 1]) then TrimEnd(s[..|s| - 1]) else s
  }

  function Trim(s: string): string {
    TrimEnd(TrimStart(s))
  }

  /** Trimming takes away white space at both ends, and nothing else. */
  lemma TrimIsTheMiddle(s: string) returns (i: nat, j: nat)
    ensures i <= j <= |s| && Trim(s) == s[i..j]
    ensures (forall k :: 0 <= k < i || j <= k < |s| ==> IsSpace(s[k]))
    ensures i < j ==> !IsSpace(s[i]) && !IsSpace(s[j - 1])
  {
    i := TrimStartDrops(s);
    j := TrimEndDrops(s[i..]);
    j := i + j;
    assert s[i..][..j - i] == s[i..j];
    forall k | 0 <= k < i || j <= k < |s| ensures IsSpace(s[k]) {
      assert j <= k ==> s[i..][k - i] == s[k];
    }
    if i < j {
      assert TrimStart(s)[0] == s[i];
    }
  }

  lemma {:induction false} TrimStartDrops(s: string) returns (i: nat)
    ensures i <= |s| && TrimStart(s) == s[i..] && forall k :: 0 <= k < i ==> IsSpace(s[k])
  {
    i := 0;
    if s != "" && IsSpace(s[0]) {
      i := TrimStartDrops(s[1..]);
      assert forall k :: 0 < k < i + 1 ==> s[k] == s[1..][k - 1];
      assert s[1..][i..] == s[i + 1..];
      i := i + 1;
    }
  }

  lemma {:induction false} TrimEndDrops(s: string) returns (j: nat)
    ensures j <= |s| && TrimEnd(s) == s[..j] && forall k :: j <= k < |s| ==> IsSpace(s[k])
  {
    j := |s|;
    if s != "" && IsSpace(s[|s| - 1]) {
      j := TrimEndDrops(s[..|s| - 1]);
      assert s[..|s| - 1][..j] == s[..j];
    } else {
      assert s[..|s|] == s;
    }
  }

  /** A text within bounds that also has content once trimmed. */
  predicate Within(s: string, least: nat, most: nat) {
    least <= Bytes(Trim(s)) && Bytes(s) <= most
  }

  lemma {:induction false} BytesAdd(a: string, b: string)
    ensures Bytes(a + b) == Bytes(a) + Bytes(b)
  {
    if b == "" {
      assert a + b == a;
    } else {
      var n := |b| - 1;
      BytesAdd(a, b[..n]);
      assert (a + b)[..|a + b| - 1] == a + b[..n];
    }
  }

  lemma {:induction false} BytesGrow(s: string, i: nat, j: nat)
    requires i <= j <= |s|
    ensures Bytes(s[..i]) + (j - i) <= Bytes(s[..j])
    decreases j
  {
    if i < j {
      BytesGrow(s, i, j - 1);
      assert s[..j][..j - 1] == s[..j - 1];
    }
  }

  /** Trimming the front of a text leaves at least what follows its first character that is not
      white space. */
  lemma {:induction false} TrimStartKeeps(a: string, b: string)
    requires b != "" && !IsSpace(b[0])
    ensures Bytes(b) <= Bytes(TrimStart(a + b))
    ensures TrimStart(a + b) != "" && TrimStart(a + b)[|TrimStart(a + b)| - 1] == b[|b| - 1]
  {
    if a == "" {
      assert a + b == b;
    } else if IsSpace(a[0]) {
      assert (a + b)[1..] == a[1..] + b;
      TrimStartKeeps(a[1..], b);
    } else {
      BytesAdd(a, b);
      assert (a + b)[0] == a[0];
    }
  }
}
