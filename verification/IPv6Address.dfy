/** IPv6 addresses: text output (`insert`) and broadcast arithmetic (`broadcastAddress`). */
module IPv6 {
  import opened Tasks

  type Group = g: nat | g < 0x1_0000

  predicate Valid(bytes: seq<bv8>) {
    |bytes| == 16
  }

  /** The host value of the 16-bit word at index `i` of the address in network order. */
  function GroupAt(bytes: seq<bv8>, i: nat): Group
    requires Valid(bytes) && i < 8
  {
    bytes[2 * i] as nat * 256 + bytes[2 * i + 1] as nat
  }

  function Groups(bytes: seq<bv8>): (g: seq<Group>)
    requires Valid(bytes)
    ensures |g| == 8
  {
    seq(8, i requires 0 <= i < 8 => GroupAt(bytes, i))
  }

  // ----- Numbers as an output stream prints them -----

  const DIGITS := "0123456789abcdef"

  function Hex(n: nat): string {
    (if n < 16 then "" else Hex(n / 16)) + [DIGITS[n % 16]]
  }

  function Decimal(n: nat): string {
    (if n < 10 then "" else Decimal(n / 10)) + [DIGITS[n % 10]]
  }

  // ----- Section 2.2 of RFC 4291, read as a decoder -----

  function HexDigit(c: char): Option<nat> {
    if '0' <= c <= '9' then Some(c as nat - '0' as nat)
    else if 'a' <= c <= 'f' then Some(c as nat - 'a' as nat + 10)
    else if 'A' <= c <= 'F' then Some(c as nat - 'A' as nat + 10)
    else None
  }

  /** The value of a nonempty string of hexadecimal digits. */
  function HexValue(s: string): Option<nat> {
    if s == "" then None
    else
      var last := HexDigit(s[|s| - 1]);
      if last.None? then None
      else if |s| == 1 then last
      else match HexValue(s[..|s| - 1])
        case None => None
        case Some(v) => Some(v * 16 + last.value)
  }

  /** One group: one to four hexadecimal digits. */
  function DecodeGroup(s: string): Option<Group> {
    if 1 <= |s| <= 4 && HexValue(s).Some? && HexValue(s).value < 0x1_0000 then Some(HexValue(s).value) else None
  }

  function Find(s: string, c: char): (n: nat)
    ensures n <= |s| && (n < |s| ==> s[n] == c)
  {
    if s == "" || s[0] == c then 0 else 1 + Find(s[1..], c)
  }

  /** Groups separated by single colons, at least one. */
  function DecodeGroups(s: string): Option<seq<Group>>
    decreases |s|
  {
    var n := Find(s, ':');
    var head := DecodeGroup(s[..n]);
    if head.None? then None
    else if n == |s| then Some([head.value])
    else match DecodeGroups(s[n + 1..])
      case None => None
      case Some(tail) => Some([head.value] + tail)
  }

  /** The part beside a double colon, which may be empty. */
  function DecodePart(s: string): Option<seq<Group>> {
    if s == "" then Some([]) else DecodeGroups(s)
  }

  /** The position of the first double colon. */
  function FindDouble(s: string): (n: nat)
    ensures n <= |s| && (n < |s| ==> n + 2 <= |s| && s[n] == s[n + 1] == ':')
  {
    if s == "" then 0
    else if |s| >= 2 && s[0] == ':' && s[1] == ':' then 0
    else 1 + FindDouble(s[1..])
  }

  function Zeros(n: nat): (z: seq<Group>)
    ensures |z| == n && forall i | 0 <= i < n :: z[i] == 0
  {
    if n == 0 then [] else [0] + Zeros(n - 1)
  }

  /** Eight groups, or fewer with one double colon standing for at least one group of zeros. */
  function Decode(s: string): Option<seq<Group>> {
    var d := FindDouble(s);
    if d == |s| then
      match DecodeGroups(s)
      case None => None
      case Some(g) => if |g| == 8 then Some(g) else None
    else
      Expand(DecodePart(s[..d]), DecodePart(s[d + 2..]))
  }

  function Expand(left: Option<seq<Group>>, right: Option<seq<Group>>): Option<seq<Group>> {
    if left.Some? && right.Some? && |left.value| + |right.value| < 8 then
      Some(left.value + Zeros(8 - |left.value| - |right.value|) + right.value)
    else None
  }

  // ----- What `insert` writes -----

  function Join(g: seq<Group>): string {
    if g == [] then "" else if |g| == 1 then Hex(g[0]) else Hex(g[0]) + ":" + Join(g[1..])
  }

  /** The first zero group, or the length. */
  function FirstZero(g: seq<Group>): (a: nat)
    ensures a <= |g| && (a < |g| ==> g[a] == 0) && forall i | 0 <= i < a :: g[i] != 0
  {
    if g == [] || g[0] == 0 then 0 else 1 + FirstZero(g[1..])
  }

  /** The first nonzero group, or the length. */
  function FirstNonzero(g: seq<Group>): (b: nat)
    ensures b <= |g| && (b < |g| ==> g[b] != 0) && forall i | 0 <= i < b :: g[i] == 0
  {
    if g == [] || g[0] != 0 then 0 else 1 + FirstNonzero(g[1..])
  }

  /** The text between the brackets: the first zero run is dropped, and marked only when a group follows it. */
  function AddressText(g: seq<Group>): string {
    var a := FirstZero(g);
    var b := a + FirstNonzero(g[a..]);
    if a == |g| then Join(g)
    else if b == |g| then Join(g[..a])
    else Join(g[..a]) + "::" + Join(g[b..]) + if g[|g| - 1] == 0 then "::" else ""
  }

  lemma {:induction false} JoinAppend(g: seq<Group>, x: Group)
    ensures Join(g + [x]) == (if g == [] then "" else Join(g) + ":") + Hex(x)
  {
    if g != [] {
      assert (g + [x])[1..] == g[1..] + [x];
      JoinAppend(g[1..], x);
    }
  }

  /** The text of the first `i` groups, with the first zero run `[a, b)` dropped. */
  ghost function Written(g: seq<Group>, a: nat, b: nat, i: nat): string
    requires a <= b <= |g| && i <= |g|
  {
    if i <= a then Join(g[..i])
    else if i <= b then Join(g[..a])
    else Join(g[..a]) + "::" + Join(g[b..i])
  }

  /** The separators written in front of group `i`. */
  ghost function Separator(a: nat, b: nat, i: nat): string {
    if i == 0 then "" else if a < b == i then "::" else ":"
  }

  lemma WrittenHead(g: seq<Group>, a: nat, b: nat, i: nat)
    requires i < a <= b <= |g|
    ensures Written(g, a, b, i + 1) == Written(g, a, b, i) + (Separator(a, b, i) + Hex(g[i]))
  {
    JoinAppend(g[..i], g[i]);
    assert g[..i + 1] == g[..i] + [g[i]];
    Associate(Join(g[..i]), ":", Hex(g[i]));
  }

  lemma WrittenTail(g: seq<Group>, a: nat, b: nat, i: nat)
    requires a < b <= i < |g|
    ensures Written(g, a, b, i + 1) == Written(g, a, b, i) + (Separator(a, b, i) + Hex(g[i]))
  {
    JoinAppend(g[b..i], g[i]);
    assert g[b..i + 1] == g[b..i] + [g[i]];
    var w, j, h := Join(g[..a]), Join(g[b..i]), Hex(g[i]);
    if i == b {
      assert "" + h == h;
      Associate(w, "::", h);
    } else {
      Associate(j, ":", h);
      Associate(w + "::", j, ":" + h);
    }
  }

  lemma Associate(w: string, t: string, h: string)
    ensures w + t + h == w + (t + h)
  {
  }

  /** `IPv6Address::insert`. */
  method Insert(bytes: seq<bv8>, port: nat) returns (os: string)
    requires Valid(bytes)
    ensures os == "[" + AddressText(Groups(bytes)) + "]:" + Decimal(port)
  {
    var text := InsertGroups(Groups(bytes));
    os := "[" + text + "]:" + Decimal(port);
  }

  /** Its loop over the groups, and the closing test. */
  method InsertGroups(addr: seq<Group>) returns (os: string)
    requires |addr| == 8
    ensures os == AddressText(addr)
  {
    os := "";
    var used_zero := false;
    ghost var a := FirstZero(addr);
    ghost var b := a + FirstNonzero(addr[a..]);
    for i := 0 to 8
      invariant os == Written(addr, a, b, i)
      invariant used_zero <==> a < b < i
    {
      if addr[i] == 0 && !used_zero {
        continue;
      }
      ghost var before := os;
      if i != 0 && addr[i - 1] == 0 && !used_zero {
        os := os + ":";
        used_zero := true;
      }
      if i != 0 {
        os := os + ":";
      }
      assert os == before + Separator(a, b, i);
      os := os + Hex(addr[i]);
      Associate(before, Separator(a, b, i), Hex(addr[i]));
      if i < a {
        WrittenHead(addr, a, b, i);
      } else {
        WrittenTail(addr, a, b, i);
      }
    }
    if used_zero && addr[7] == 0 {
      os := os + "::";
    }
    assert addr[..8] == addr && addr[b..8] == addr[b..];
  }

  // ----- The text decodes to the address -----

  ghost predicate NoColon(s: string) {
    forall k | 0 <= k < |s| :: s[k] != ':'
  }

  lemma DigitDecodes(d: nat)
    requires d < 16
    ensures HexDigit(DIGITS[d]) == Some(d) && DIGITS[d] != ':'
  {
    if d < 10 {
      assert DIGITS[d] as nat == '0' as nat + d;
    } else {
      assert DIGITS[d] as nat == 'a' as nat + d - 10;
    }
  }

  lemma {:induction false} HexDecodes(n: nat, width: nat, bound: nat)
    requires (width, bound) in {(1, 16), (2, 256), (3, 4096), (4, 65536)} && n < bound
    ensures 1 <= |Hex(n)| <= width && HexValue(Hex(n)) == Some(n) && NoColon(Hex(n))
  {
    DigitDecodes(n % 16);
    if n < 16 {
      assert Hex(n) == [DIGITS[n % 16]];
    } else {
      HexDecodes(n / 16, width - 1, bound / 16);
      HexAppend(Hex(n / 16), n / 16, n % 16);
      assert n == n / 16 * 16 + n % 16;
    }
  }

  lemma HexAppend(s: string, v: nat, d: nat)
    requires d < 16 && s != "" && HexValue(s) == Some(v) && NoColon(s)
    ensures HexValue(s + [DIGITS[d]]) == Some(v * 16 + d) && NoColon(s + [DIGITS[d]])
  {
    var t := s + [DIGITS[d]];
    DigitDecodes(d);
    assert t[..|t| - 1] == s && t[|t| - 1] == DIGITS[d];
  }

  lemma GroupDecodes(x: Group)
    ensures DecodeGroup(Hex(x)) == Some(x) && NoColon(Hex(x)) && Hex(x) != ""
  {
    HexDecodes(x, 4, 65536);
  }

  lemma {:induction false} FindSkips(h: string, t: string)
    requires NoColon(h)
    ensures Find(h + t, ':') == |h| + Find(t, ':')
  {
    if h == "" {
      assert h + t == t;
    } else {
      assert (h + t)[1..] == h[1..] + t;
      FindSkips(h[1..], t);
    }
  }

  lemma {:induction false} FindDoubleSkips(h: string, t: string)
    requires NoColon(h)
    ensures FindDouble(h + t) == |h| + FindDouble(t)
  {
    if h == "" {
      assert h + t == t;
    } else {
      assert (h + t)[1..] == h[1..] + t;
      FindDoubleSkips(h[1..], t);
    }
  }

  lemma DecodeLast(h: string, x: Group)
    requires NoColon(h) && DecodeGroup(h) == Some(x)
    ensures DecodeGroups(h) == Some([x])
  {
    FindSkips(h, "");
    assert h + "" == h && h[..|h|] == h;
  }

  lemma DecodeFirst(h: string, x: Group, u: string)
    requires NoColon(h) && DecodeGroup(h) == Some(x)
    ensures DecodeGroups(h + ":" + u) ==
            if DecodeGroups(u).None? then None else Some([x] + DecodeGroups(u).value)
  {
    var s := h + ":" + u;
    FindSkips(h, ":" + u);
    Associate(h, ":", u);
    assert s[..|h|] == h && s[|h| + 1..] == u;
  }

  /** A joined list decodes to itself. */
  lemma {:induction false} JoinDecodes(g: seq<Group>)
    requires g != []
    ensures DecodeGroups(Join(g)) == Some(g)
  {
    GroupDecodes(g[0]);
    if |g| == 1 {
      DecodeLast(Hex(g[0]), g[0]);
      assert g == [g[0]];
    } else {
      JoinDecodes(g[1..]);
      DecodeFirst(Hex(g[0]), g[0], Join(g[1..]));
      assert [g[0]] + g[1..] == g;
    }
  }

  /** Text that a double colon ends is no list of groups. */
  lemma {:induction false} JoinDoubleFails(g: seq<Group>)
    requires g != []
    ensures DecodeGroups(Join(g) + "::") == None
  {
    var h := Hex(g[0]);
    GroupDecodes(g[0]);
    if |g| == 1 {
      DecodeFirst(h, g[0], ":");
      assert DecodeGroups(":") == None by {
        assert Find(":", ':') == 0;
      }
      assert h + "::" == h + ":" + ":";
    } else {
      JoinDoubleFails(g[1..]);
      DecodeFirst(h, g[0], Join(g[1..]) + "::");
      Associate(h + ":", Join(g[1..]), "::");
    }
  }

  ghost predicate Doubled(t: string) {
    |t| >= 2 && t[0] == t[1] == ':'
  }

  /** A joined list has no double colon of its own, and does not join up with one that follows. */
  lemma {:induction false} FirstDouble(g: seq<Group>, t: string)
    requires t == "" || Doubled(t)
    ensures FindDouble(Join(g) + t) == |Join(g)|
  {
    if g == [] {
      assert "" + t == t;
    } else {
      var h := Hex(g[0]);
      GroupDecodes(g[0]);
      if |g| == 1 {
        FindDoubleSkips(h, t);
      } else {
        var u := Join(g[1..]) + t;
        FirstDouble(g[1..], t);
        GroupDecodes(g[1]);
        assert u[0] == Hex(g[1])[0];
        assert (":" + u)[1..] == u;
        FindDoubleSkips(h, ":" + u);
        Associate(h, ":", Join(g[1..]));
        Associate(h, ":" + Join(g[1..]), t);
        Associate(":", Join(g[1..]), t);
      }
    }
  }

  lemma PartDecodes(g: seq<Group>)
    ensures DecodePart(Join(g)) == Some(g)
  {
    if g != [] {
      GroupDecodes(g[0]);
      JoinDecodes(g);
    }
  }

  /** A list cut short by dropping its last groups, all zero, is no address. */
  lemma CutFails(g: seq<Group>)
    requires |g| < 8
    ensures Decode(Join(g)) == None
  {
    if g == [] {
      assert DecodeGroups("") == None;
    } else {
      FirstDouble(g, "");
      assert Join(g) + "" == Join(g);
      JoinDecodes(g);
    }
  }

  lemma WholeDecodes(g: seq<Group>)
    requires |g| == 8
    ensures Decode(Join(g)) == Some(g)
  {
    FirstDouble(g, "");
    assert Join(g) + "" == Join(g);
    JoinDecodes(g);
  }

  lemma DecodeAt(l: string, right: string)
    requires FindDouble(l + ("::" + right)) == |l|
    ensures Decode(l + ("::" + right)) == Expand(DecodePart(l), DecodePart(right))
  {
    var s := l + ("::" + right);
    assert s[..|l|] == l && s[|l| + 2..] == right;
  }

  lemma SplitDecodes(left: seq<Group>, right: string)
    ensures Decode(Join(left) + ("::" + right)) == Expand(Some(left), DecodePart(right))
  {
    FirstDouble(left, "::" + right);
    DecodeAt(Join(left), right);
    PartDecodes(left);
  }

  lemma RunDecodes(g: seq<Group>, a: nat, b: nat)
    requires |g| == 8 && a < b < 8 && forall i | 0 <= i < b - a :: g[a..][i] == 0
    ensures Decode(Join(g[..a]) + "::" + Join(g[b..])) == Some(g)
  {
    Associate(Join(g[..a]), "::", Join(g[b..]));
    SplitDecodes(g[..a], Join(g[b..]));
    PartDecodes(g[b..]);
    SplitAtRun(g, a, b);
  }

  lemma TrailingFails(left: seq<Group>, g: seq<Group>)
    requires g != []
    ensures Decode(Join(left) + "::" + Join(g) + "::") == None
  {
    Associate(Join(left) + "::", Join(g), "::");
    Associate(Join(left), "::", Join(g) + "::");
    SplitDecodes(left, Join(g) + "::");
    JoinDoubleFails(g);
  }

  /** The printed text decodes to the address exactly when the last group is nonzero; otherwise it is malformed. */
  lemma TextDecodes(g: seq<Group>)
    requires |g| == 8
    ensures Decode(AddressText(g)) == if g[7] != 0 then Some(g) else None
  {
    var a := FirstZero(g);
    var b := a + FirstNonzero(g[a..]);
    if a == 8 {
      WholeDecodes(g);
    } else if b == 8 {
      assert g[a..][7 - a] == 0;
      CutFails(g[..a]);
    } else if g[7] == 0 {
      TrailingFails(g[..a], g[b..]);
    } else {
      var s := Join(g[..a]) + "::" + Join(g[b..]);
      assert s + "" == s;
      RunDecodes(g, a, b);
    }
  }

  lemma SplitAtRun(g: seq<Group>, a: nat, b: nat)
    requires a <= b <= |g| && forall i | 0 <= i < b - a :: g[a..][i] == 0
    ensures g[..a] + Zeros(b - a) + g[b..] == g
  {
    assert forall i | a <= i < b :: g[i] == g[a..][i - a];
  }
}
