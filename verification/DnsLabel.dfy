/** Host labels for service discovery (section 2.3.4 of RFC 1035, section 2.1 of RFC 1123). */
module DnsLabel {
  import opened Prelude

  const HOST_LABEL_MAX_BYTES: nat := 63
  const HOST_PART_MAX_BYTES: nat := 24
  const DEFAULT_LABEL: Text := "tvos-net-player-cache"

  // ---------------------------------------------------------------- characters

  predicate IsUpper(c: char) { 'A' <= c <= 'Z' }

  function Lower(c: char): char {
    if IsUpper(c) then c - 'A' + 'a' else c
  }

  predicate IsLabelChar(c: char) { 'a' <= c <= 'z' || '0' <= c <= '9' }

  predicate IsAlphanumeric(c: char) { IsLabelChar(Lower(c)) }

  // ---------------------------------------------------------------- truncation

  /** The length of the character a UTF-8 lead byte starts. */
  function CharLength(lead: char): nat {
    if lead < 0x80 as char then 1 else if lead < 0xE0 as char then 2 else if lead < 0xF0 as char then 3 else 4
  }

  /** Whole characters only from byte `i` on, as Rust guarantees of a string. */
  predicate WholeFrom(t: Text, i: nat)
    decreases |t| - i
  {
    i == |t| || (i < |t| && i + CharLength(t[i]) <= |t| && WholeFrom(t, i + CharLength(t[i])))
  }

  predicate WellFormed(t: Text) {
    WholeFrom(t, 0)
  }

  /** From byte `i` on, `k` is reached by whole characters. */
  predicate Reaches(t: Text, i: nat, k: nat)
    decreases |t| - i
  {
    i == k || (i < |t| && i + CharLength(t[i]) <= k <= |t| && Reaches(t, i + CharLength(t[i]), k))
  }

  /** The first `k` bytes are a whole number of characters. */
  predicate Boundary(t: Text, k: nat) {
    Reaches(t, 0, k)
  }

  lemma {:induction false} NextBoundary(t: Text, i: nat, k: nat)
    requires Reaches(t, i, k) && k < |t| && k + CharLength(t[k]) <= |t|
    ensures Reaches(t, i, k + CharLength(t[k]))
    decreases |t| - i
  {
    if i == k {
      assert Reaches(t, k + CharLength(t[k]), k + CharLength(t[k]));
    } else {
      NextBoundary(t, i + CharLength(t[i]), k);
    }
  }

  lemma {:induction false} NoBoundaryInside(t: Text, i: nat, k: nat, j: nat)
    requires Reaches(t, i, k) && k < |t| && k < j < k + CharLength(t[k])
    ensures !Reaches(t, i, j)
    decreases |t| - i
  {
    if i < k {
      NoBoundaryInside(t, i + CharLength(t[i]), k, j);
    }
  }

  lemma {:induction false} BoundaryFits(t: Text, i: nat, k: nat)
    requires WholeFrom(t, i) && Reaches(t, i, k) && k < |t|
    ensures k + CharLength(t[k]) <= |t|
    decreases |t| - i
  {
    if i < k {
      BoundaryFits(t, i + CharLength(t[i]), k);
    }
  }

  /** The longest prefix of whole characters within the limit. */
  method TruncateUtf8(value: Text, maxBytes: nat) returns (prefix: Text)
    requires WellFormed(value)
    ensures |prefix| <= maxBytes && |prefix| <= |value| && prefix == value[..|prefix|]
    ensures |value| <= maxBytes ==> prefix == value
    ensures |value| > maxBytes ==> Boundary(value, |prefix|) && forall j :: |prefix| < j <= maxBytes ==>
            !Boundary(value, j)
  {
    if maxBytes == 0 {
      return "";
    }
    if |value| <= maxBytes {
      return value;
    }
    var end := 0;
    while end < |value|
      invariant end <= maxBytes && Boundary(value, end)
      decreases |value| - end
    {
      BoundaryFits(value, 0, end);
      NextBoundary(value, 0, end);
      var next := end + CharLength(value[end]);
      if next > maxBytes {
        forall j | end < j <= maxBytes ensures !Boundary(value, j) {
          NoBoundaryInside(value, 0, end, j);
        }
        break;
      }
      end := next;
    }
    return value[..end];
  }

  ghost predicate Ascii(t: Text) {
    forall i :: 0 <= i < |t| ==> t[i] < 0x80 as char
  }

  lemma {:induction false} AsciiBoundaries(t: Text, i: nat, k: nat)
    requires Ascii(t) && i <= k <= |t|
    ensures WholeFrom(t, i) && Reaches(t, i, k)
    decreases |t| - i
  {
    if i < |t| {
      AsciiBoundaries(t, i + 1, if i < k then k else i + 1);
    }
  }

  // ---------------------------------------------------------------- trimming

  function TrimStart(t: Text): Text {
    if t != "" && t[0] == '-' then TrimStart(t[1..]) else t
  }

  function TrimEnd(t: Text): Text {
    if t != "" && t[|t| - 1] == '-' then TrimEnd(t[..|t| - 1]) else t
  }

  /** `trim_matches('-')` */
  function TrimDashes(t: Text): Text {
    TrimEnd(TrimStart(t))
  }

  // ---------------------------------------------------------------- the reference

  /** The maximal runs of letters and digits, in lower case. */
  function Words(t: Text): (ws: seq<Text>)
    ensures t != "" && IsAlphanumeric(t[|t| - 1]) ==> ws != []
  {
    if t == "" then []
    else
      var front, last := t[..|t| - 1], t[|t| - 1];
      var ws := Words(front);
      if !IsAlphanumeric(last) then ws
      else if front != "" && IsAlphanumeric(front[|front| - 1]) then ws[..|ws| - 1] + [ws[|ws| - 1] + [Lower(last)]]
      else ws + [[Lower(last)]]
  }

  function Joined(ws: seq<Text>): Text {
    if ws == [] then "" else if |ws| == 1 then ws[0] else Joined(ws[..|ws| - 1]) + "-" + ws[|ws| - 1]
  }

  /** The runs joined by single hyphens, cut to 63 bytes without a hyphen at the end. */
  function Component(t: Text): Option<Text> {
    if Words(t) == [] then None
    else Some(TrimDashes(Joined(Words(t))[..Min(HOST_LABEL_MAX_BYTES, |Joined(Words(t))|)]))
  }

  /** What a label must look like. */
  ghost predicate Clean(t: Text) {
    && t != "" && t[0] != '-' && t[|t| - 1] != '-'
    && (forall i :: 0 <= i < |t| ==> 'a' <= t[i] <= 'z' || '0' <= t[i] <= '9' || t[i] == '-')
    && (forall i :: 0 <= i < |t| - 1 ==> t[i] != '-' || t[i + 1] != '-')
  }

  ghost predicate Word(w: Text) {
    w != "" && forall i :: 0 <= i < |w| ==> IsLabelChar(w[i])
  }

  lemma {:induction false} WordsAreWords(t: Text)
    ensures forall k :: 0 <= k < |Words(t)| ==> Word(Words(t)[k])
  {
    if t != "" {
      WordsAreWords(t[..|t| - 1]);
    }
  }

  lemma {:induction false} JoinedClean(ws: seq<Text>)
    requires ws != [] && forall k :: 0 <= k < |ws| ==> Word(ws[k])
    ensures Clean(Joined(ws))
  {
    if |ws| > 1 {
      JoinedClean(ws[..|ws| - 1]);
      assert Word(ws[|ws| - 1]);
    } else {
      assert Word(ws[0]);
    }
  }

  lemma TrimClean(t: Text, k: nat)
    requires Clean(t) && 0 < k <= |t|
    ensures Clean(TrimDashes(t[..k])) && |TrimDashes(t[..k])| <= k
  {
    var p := t[..k];
    assert TrimStart(p) == p;
    if p[k - 1] == '-' {
      assert t[k - 1] == '-' && k > 1;
      assert t[k - 2] != '-';
      assert TrimEnd(p) == TrimEnd(p[..k - 1]) == p[..k - 1];
    }
  }

  lemma ComponentClean(t: Text)
    requires Component(t).Some?
    ensures Clean(Component(t).value) && |Component(t).value| <= HOST_LABEL_MAX_BYTES
  {
    WordsAreWords(t);
    JoinedClean(Words(t));
    TrimClean(Joined(Words(t)), Min(HOST_LABEL_MAX_BYTES, |Joined(Words(t))|));
  }

  // ---------------------------------------------------------------- the loop

  lemma JoinedLast(front: seq<Text>, w: Text)
    ensures Joined(front + [w]) == if front == [] then w else Joined(front) + "-" + w
  {
    assert (front + [w])[..|front|] == front;
  }

  lemma JoinedExtended(front: seq<Text>, w: Text, c: char)
    ensures Joined(front + [w + [c]]) == Joined(front + [w]) + [c]
  {
    JoinedLast(front, w);
    JoinedLast(front, w + [c]);
    if front != [] {
      assert Joined(front) + "-" + (w + [c]) == Joined(front) + "-" + w + [c];
    }
  }

  predicate EndsInRun(t: Text) {
    t != "" && IsAlphanumeric(t[|t| - 1])
  }

  /** How one more byte changes the joined runs. */
  lemma WordsStep(front: Text, c: char)
    ensures !IsAlphanumeric(c) ==> Words(front + [c]) == Words(front)
    ensures IsAlphanumeric(c) ==> Words(front + [c]) != []
    ensures IsAlphanumeric(c) && EndsInRun(front) ==>
            Words(front) != [] && Joined(Words(front + [c])) == Joined(Words(front)) + [Lower(c)]
    ensures IsAlphanumeric(c) && !EndsInRun(front) ==>
              Joined(Words(front + [c])) == if Words(front) == []
                  then [Lower(c)] else Joined(Words(front)) + "-" + [Lower(c)]
  {
    var ws := Words(front);
    assert (front + [c])[..|front|] == front && (front + [c])[|front|] == c;
    if IsAlphanumeric(c) {
      if EndsInRun(front) {
        assert ws == ws[..|ws| - 1] + [ws[|ws| - 1]];
        JoinedExtended(ws[..|ws| - 1], ws[|ws| - 1], Lower(c));
      } else {
        JoinedLast(ws, [Lower(c)]);
      }
    }
  }

  /** The text built so far, and whether it ends in a hyphen, after reading `read`. */
  ghost predicate Building(read: Text, text: Text, dash: bool) {
    && text == Joined(Words(read)) + (if dash then "-" else "")
    && (dash <==> Words(read) != [] && !EndsInRun(read))
  }

  lemma BuildingEmpty(read: Text, text: Text, dash: bool)
    requires Building(read, text, dash)
    ensures text == "" <==> Words(read) == []
  {
    WordsAreWords(read);
    JoinedEmpty(Words(read));
  }

  lemma AddRunByte(read: Text, text: Text, dash: bool, c: char)
    requires Building(read, text, dash) && IsAlphanumeric(c)
    ensures Building(read + [c], text + [Lower(c)], false)
  {
    WordsStep(read, c);
    assert EndsInRun(read + [c]);
    var before, after := Joined(Words(read)), Joined(Words(read + [c]));
    if EndsInRun(read) {
      assert after == before + [Lower(c)];
    } else if Words(read) == [] {
      assert after == [Lower(c)] && text == "";
    } else {
      assert after == before + "-" + [Lower(c)];
    }
  }

  lemma AddOther(read: Text, text: Text, dash: bool, c: char)
    requires Building(read, text, dash) && !IsAlphanumeric(c)
    ensures !dash && text != "" ==> Building(read + [c], text + "-", true)
    ensures dash || text == "" ==> Building(read + [c], text, dash)
  {
    BuildingEmpty(read, text, dash);
    WordsStep(read, c);
    assert !EndsInRun(read + [c]);
  }

  /** `dns_label_component` */
  method DnsLabelComponent(value: Text) returns (r: Option<Text>)
    ensures r == Component(value)
  {
    var text: Text := "";
    var previousWasDash := false;
    for i := 0 to |value|
      invariant Building(value[..i], text, previousWasDash)
    {
      assert value[..i] + [value[i]] == value[..i + 1];
      if IsAlphanumeric(value[i]) {
        AddRunByte(value[..i], text, previousWasDash, value[i]);
        text := text + [Lower(value[i])];
        previousWasDash := false;
      } else {
        AddOther(value[..i], text, previousWasDash, value[i]);
        if !previousWasDash && text != "" {
          text := text + "-";
          previousWasDash := true;
        }
      }
    }
    assert value[..|value|] == value;
    r := Finish(value, text, previousWasDash);
  }

  lemma JoinedEmpty(ws: seq<Text>)
    requires forall k :: 0 <= k < |ws| ==> Word(ws[k])
    ensures Joined(ws) == "" <==> ws == []
  {
    if ws != [] {
      JoinedClean(ws);
    }
  }

  lemma TrimWhole(t: Text, dash: bool)
    requires t == "" || Clean(t)
    requires t == "" ==> !dash
    ensures TrimDashes(t + (if dash then "-" else "")) == t
  {
    var u := t + (if dash then "-" else "");
    assert TrimStart(u) == u;
    assert dash ==> u[..|u| - 1] == t;
    assert TrimEnd(t) == t;
    assert !dash ==> u == t;
  }

  lemma CleanAscii(t: Text)
    requires Clean(t)
    ensures Ascii(t) && WellFormed(t)
  {
    AsciiBoundaries(t, 0, 0);
  }

  method Truncated(t: Text, max: nat) returns (prefix: Text)
    requires Clean(t)
    ensures prefix == t[..Min(max, |t|)]
  {
    CleanAscii(t);
    AsciiBoundaries(t, 0, Min(max, |t|));
    assert Boundary(t, Min(max, |t|));
    prefix := TruncateUtf8(t, max);
  }

  method Finish(value: Text, text: Text, dash: bool) returns (r: Option<Text>)
    requires text == Joined(Words(value)) + (if dash then "-" else "") && (dash ==> Words(value) != [])
    ensures r == Component(value)
  {
    WordsAreWords(value);
    JoinedEmpty(Words(value));
    if Words(value) != [] { JoinedClean(Words(value)); }
    TrimWhole(Joined(Words(value)), dash);
    var trimmed := TrimDashes(text);
    if trimmed == "" {
      return None;
    }
    var prefix := Truncated(trimmed, HOST_LABEL_MAX_BYTES);
    return Some(TrimDashes(prefix));
  }

  // ---------------------------------------------------------------- fixed points

  lemma {:induction false} CleanIsItsWords(t: Text, i: nat)
    requires Clean(t) && i <= |t|
    ensures Building(t[..i], t[..i], i > 0 && t[i - 1] == '-')
  {
    if i > 0 {
      CleanIsItsWords(t, i - 1);
      assert t[..i] == t[..i - 1] + [t[i - 1]];
      var dash := i > 1 && t[i - 2] == '-';
      if t[i - 1] == '-' {
        assert i > 1 && t[i - 2] != '-';
        AddOther(t[..i - 1], t[..i - 1], dash, t[i - 1]);
      } else {
        assert IsLabelChar(t[i - 1]);
        AddRunByte(t[..i - 1], t[..i - 1], dash, t[i - 1]);
      }
    }
  }

  /** A clean label of at most 63 bytes is left as it is. */
  lemma CleanIsFixed(t: Text)
    requires Clean(t) && |t| <= HOST_LABEL_MAX_BYTES
    ensures Component(t) == Some(t)
  {
    CleanIsItsWords(t, |t|);
    assert t[..|t|] == t;
    TrimWhole(t, false);
  }

  /** So normalising twice is normalising once. */
  lemma ComponentIdempotent(t: Text)
    requires Component(t).Some?
    ensures Component(Component(t).value) == Component(t)
  {
    ComponentClean(t);
    CleanIsFixed(Component(t).value);
  }

  /** A label exists exactly when there is a letter or a digit. */
  lemma {:induction false} ComponentExists(t: Text)
    ensures Component(t).Some? <==>
              exists i :: 0 <= i < |t| && ('a' <= t[i] <= 'z' || 'A' <= t[i] <= 'Z' || '0' <= t[i] <= '9')
  {
    if t != "" {
      var front, last := t[..|t| - 1], t[|t| - 1];
      assert t == front + [last];
      ComponentExists(front);
      WordsStep(front, last);
      assert IsAlphanumeric(last) ==> IsAlphanumeric(t[|t| - 1]);
      assert forall i :: 0 <= i < |front| ==> front[i] == t[i];
    }
  }

  // ---------------------------------------------------------------- the host label

  function ServiceIdLabel(serverId: Text): Text {
    match Component(serverId) case Some(t) => t case None => DEFAULT_LABEL
  }

  function TrimDots(t: Text): Text {
    if t != "" && t[|t| - 1] == '.' then TrimDots(t[..|t| - 1]) else t
  }

  function BeforeDot(t: Text): Text {
    if t == "" || t[0] == '.' then "" else [t[0]] + BeforeDot(t[1..])
  }

  /** `trim` is the removal of Unicode white space around the name. */
  function HostLabelComponent(trim: Text -> Text, hostName: Text): Option<Text> {
    Component(BeforeDot(TrimDots(trim(hostName))))
  }

  function Cut(t: Text, max: nat): Text {
    TrimDashes(t[..Min(max, |t|)])
  }

  /** `service_host_label`, the server label and up to 24 bytes of the host's. */
  function HostLabel(server: Text, host: Option<Text>): Text {
    if host.None? || Cut(host.value, HOST_PART_MAX_BYTES) == "" then server
    else
      var part := Cut(host.value, HOST_PART_MAX_BYTES);
      var prefix := Cut(server, SaturatingSub(HOST_LABEL_MAX_BYTES, |part| + 1));
      if prefix == "" then part else prefix + "-" + part
  }

  method ServiceHostLabel(serverId: Text, hostName: Option<Text>, trim: Text -> Text) returns (name: Text)
    ensures name == HostLabel(ServiceIdLabel(serverId), if hostName.None?
            then None else HostLabelComponent(trim, hostName.value))
    ensures Clean(name) && |name| <= HOST_LABEL_MAX_BYTES && Component(name) == Some(name)
  {
    var component := DnsLabelComponent(serverId);
    var server := if component.Some? then component.value else DEFAULT_LABEL;
    ServerLabelClean(serverId);
    var host: Option<Text> := None;
    if hostName.Some? {
      host := DnsLabelComponent(BeforeDot(TrimDots(trim(hostName.value))));
      if host.Some? {
        ComponentClean(BeforeDot(TrimDots(trim(hostName.value))));
      }
    }
    HostLabelClean(server, host);
    if host.None? {
      return server;
    }
    var start := Truncated(host.value, HOST_PART_MAX_BYTES);
    var part := TrimDashes(start);
    if part == "" {
      return server;
    }
    start := Truncated(server, SaturatingSub(HOST_LABEL_MAX_BYTES, |part| + 1));
    var prefix := TrimDashes(start);
    if prefix == "" {
      return part;
    }
    return prefix + "-" + part;
  }

  lemma ServerLabelClean(serverId: Text)
    ensures Clean(ServiceIdLabel(serverId)) && |ServiceIdLabel(serverId)| <= HOST_LABEL_MAX_BYTES
  {
    if Component(serverId).Some? {
      ComponentClean(serverId);
    }
  }

  lemma CutClean(t: Text, max: nat)
    requires Clean(t) && max > 0
    ensures Clean(Cut(t, max)) && |Cut(t, max)| <= max
  {
    TrimClean(t, Min(max, |t|));
  }

  lemma JoinClean(a: Text, b: Text)
    requires Clean(a) && Clean(b)
    ensures Clean(a + "-" + b)
  {
  }

  lemma HostLabelClean(server: Text, host: Option<Text>)
    requires Clean(server) && |server| <= HOST_LABEL_MAX_BYTES && (host.Some? ==> Clean(host.value))
    ensures Clean(HostLabel(server, host)) && |HostLabel(server, host)| <= HOST_LABEL_MAX_BYTES
    ensures Component(HostLabel(server, host)) == Some(HostLabel(server, host))
  {
    if host.Some? {
      CutClean(host.value, HOST_PART_MAX_BYTES);
      var part := Cut(host.value, HOST_PART_MAX_BYTES);
      var max := SaturatingSub(HOST_LABEL_MAX_BYTES, |part| + 1);
      CutClean(server, max);
      JoinClean(Cut(server, max), part);
    }
    CleanIsFixed(HostLabel(server, host));
  }

  /** The first bytes of `t`, at most `max` of them, one less if the last would be a hyphen. */
  ghost predicate IsCut(prefix: Text, t: Text, max: int) {
    && prefix <= t && |prefix| <= max && prefix != "" && prefix[|prefix| - 1] != '-'
    && (|prefix| == |t| || |prefix| == max || (|prefix| == max - 1 && t[|prefix|] == '-'))
  }

  lemma CutIsCut(t: Text, max: nat)
    requires Clean(t) && max > 1
    ensures IsCut(Cut(t, max), t, max)
  {
    var k := Min(max, |t|);
    var p := t[..k];
    assert TrimStart(p) == p;
    if p[k - 1] == '-' {
      assert t[k - 1] == '-' && t[k - 2] != '-';
      assert TrimEnd(p) == TrimEnd(p[..k - 1]) == p[..k - 1];
    }
  }

  lemma {:induction false} TrimmedDots(t: Text)
    ensures TrimDots(t) <= t && forall i :: |TrimDots(t)| <= i < |t| ==> t[i] == '.'
  {
    if t != "" && t[|t| - 1] == '.' {
      TrimmedDots(t[..|t| - 1]);
    }
  }

  lemma {:induction false} BeforeDotIs(t: Text)
    ensures BeforeDot(t) <= t && '.' !in BeforeDot(t)
    ensures |BeforeDot(t)| < |t| ==> t[|BeforeDot(t)|] == '.'
  {
    if t != "" && t[0] != '.' {
      BeforeDotIs(t[1..]);
      assert t == [t[0]] + t[1..];
    }
  }

  /** The label taken from a host name is what stands before its first dot. */
  lemma FirstLabelIs(t: Text)
    ensures var first := BeforeDot(TrimDots(t));
            first <= t && '.' !in first && (|first| < |t| ==> t[|first|] == '.')
  {
    TrimmedDots(t);
    BeforeDotIs(TrimDots(t));
  }

  /** The server's label cut to what is left, a hyphen and the host's label cut to 24 bytes; without a host label the
      server's alone. */
  ghost predicate LaidOut(t: Text, server: Text, host: Option<Text>) {
    match host
    case None => t == server
    case Some(h) => exists a, b :: t == a + "-" + b && IsCut(a, server, 62 - |b|) && IsCut(b, h, 24)
  }

  lemma HostLabelLayout(server: Text, host: Option<Text>)
    requires Clean(server) && (host.Some? ==> Clean(host.value))
    ensures LaidOut(HostLabel(server, host), server, host)
  {
    if host.Some? {
      var b := Cut(host.value, HOST_PART_MAX_BYTES);
      CutIsCut(host.value, HOST_PART_MAX_BYTES);
      CutIsCut(server, 62 - |b|);
      var a := Cut(server, 62 - |b|);
      assert HostLabel(server, host) == a + "-" + b && IsCut(a, server, 62 - |b|) && IsCut(b, host.value, 24);
    }
  }

  /** For every server id and host name the host label is a valid label, a fixed point of the normalisation, and the two
      labels in that order. */
  lemma HostLabelIsValid(serverId: Text, hostName: Option<Text>, trim: Text -> Text)
    ensures var host := if hostName.None? then None else HostLabelComponent(trim, hostName.value);
            var server := match Component(serverId) case Some(t) => t case None => "tvos-net-player-cache";
            var t := HostLabel(ServiceIdLabel(serverId), host);
            Clean(t) && |t| <= 63 && Component(t) == Some(t) && LaidOut(t, server, host)
  {
    ServerLabelClean(serverId);
    if hostName.Some? && HostLabelComponent(trim, hostName.value).Some? {
      ComponentClean(BeforeDot(TrimDots(trim(hostName.value))));
    }
    var host := if hostName.None? then None else HostLabelComponent(trim, hostName.value);
    HostLabelClean(ServiceIdLabel(serverId), host);
    HostLabelLayout(ServiceIdLabel(serverId), host);
  }
}
