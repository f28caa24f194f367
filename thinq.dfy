/**
 * The client the devices talk to (src/lib/ThinQ.ts): device listing, the device-model cache,
 * control commands, the bounded start-up retry of the push channel, and the two pure helpers of
 * the push channel set-up: choosing the root certificate by host name, and preparing the CSR.
 */
module ThinQClient {
  import opened Wrappers
  import opened JsValues
  import opened Appliance
  import opened ThinQApi

  /** `device: string | Device`. */
  datatype Target = DeviceRef(device: Device) | DeviceId(id: string)

  function TargetId(t: Target): (id: string)
    ensures t.DeviceRef? ==> id == t.device.id
    ensures t.DeviceId? ==> id == t.id
  {
    match t
    case DeviceRef(d) => d.id
    case DeviceId(id) => id
  }

  /** The result code the service gives for "the same value was submitted". */
  const SAME_VALUE_CODE := "0103"

  /**
   * What `deviceControl`'s promise resolves to: the reply body, or after a rejection `false` for
   * the same-value code and `undefined` otherwise.
   */
  function ControlResult(reply: Result<Value, Value>): (r: Value)
    ensures reply.Ok? ==> r == reply.value
    ensures reply.Err? ==> (r == Bool(false) <==>
      Field(Field(Field(reply.error, "response"), "data"), "resultCode") == Str(SAME_VALUE_CODE))
    ensures reply.Err? && r != Bool(false) ==> r == Undef
  {
    match reply
    case Ok(v) => v
    case Err(err) =>
      if Field(Field(Field(err, "response"), "data"), "resultCode") == Str(SAME_VALUE_CODE) then Bool(false)
      else Undef
  }

  // ---------------------------------------------------------------------------------------------
  // Root certificate by host name

  /** One element of the host-name patterns. */
  datatype Pat =
    | Lit(c: char)
    /** an unescaped `.`: any character but a line terminator */
    | AnyChar
    /** `[^.]+` */
    | NonDotRun

  predicate IsLineTerminator(c: char) {
    c == '\n' || c == '\r' || c == '\U{2028}' || c == '\U{2029}'
  }

  predicate NoDot(s: string) {
    forall i :: 0 <= i < |s| ==> s[i] != '.'
  }

  function Lits(s: string): (p: seq<Pat>)
    ensures |p| == |s| && forall i :: 0 <= i < |s| ==> p[i] == Lit(s[i])
  {
    if s == [] then [] else [Lit(s[0])] + Lits(s[1..])
  }

  /** Whether the whole of `s` matches `p` (the patterns are anchored at both ends). */
  predicate Match(p: seq<Pat>, s: string)
    decreases |p|
  {
    if p == [] then s == []
    else
      match p[0]
      case Lit(c) => s != [] && s[0] == c && Match(p[1..], s[1..])
      case AnyChar => s != [] && !IsLineTerminator(s[0]) && Match(p[1..], s[1..])
      case NonDotRun => exists k :: 1 <= k <= |s| && NoDot(s[..k]) && Match(p[1..], s[k..])
  }

  /** `^([^.]+)-ats.iot.([^.]+).amazonaws.com$` */
  const AMAZON_HOST: seq<Pat> := AMAZON_HEAD + AMAZON_TAIL
  const AMAZON_HEAD: seq<Pat> :=
    [NonDotRun] + Lits("-ats") + [AnyChar] + Lits("iot") + [AnyChar] + [NonDotRun] + [AnyChar]
  /** `amazonaws.com`, the part of the Amazon pattern after the region */
  const AMAZON_TAIL: seq<Pat> := Lits("amazonaws") + [AnyChar] + Lits("com")
  /** `^([^.]+).iot.ruic.lgthinq.com$` */
  const LG_HOST: seq<Pat> := LG_HEAD + LG_TAIL
  const LG_HEAD: seq<Pat> := [NonDotRun] + [AnyChar] + Lits("iot") + [AnyChar] + Lits("ruic") + [AnyChar]
  /** `lgthinq.com`, the part of the LG pattern after `ruic` */
  const LG_TAIL: seq<Pat> := Lits("lgthinq") + [AnyChar] + Lits("com")

  const AMAZON_ROOT_CA := "https://www.amazontrust.com" + "/repository/AmazonRootCA1.pem"
  const COMODO_ROOT_CA := "http://www.tbs-x509.com" + "/Comodo_AAA_Certificate_Services.crt"
  const VERISIGN_ROOT_CA := "https://www.websecurity.digicert.com"
    + "/content/dam/websitesecurity/digitalassets/desktop/pdfs/roots/"
    + "VeriSign-Class%203-Public-Primary-Certification-Authority-G5.pem"

  /** The root certificate to fetch for the push server `hostname`: AWS ATS, LG's own, or the legacy one. */
  function RootCAUrl(hostname: string): (url: string)
    ensures url == AMAZON_ROOT_CA <==> Match(AMAZON_HOST, hostname)
    ensures url == COMODO_ROOT_CA <==> !Match(AMAZON_HOST, hostname) && Match(LG_HOST, hostname)
    ensures url == VERISIGN_ROOT_CA <==> !Match(AMAZON_HOST, hostname) && !Match(LG_HOST, hostname)
  {
    assert AMAZON_ROOT_CA[4] != COMODO_ROOT_CA[4];
    assert AMAZON_ROOT_CA[12] != VERISIGN_ROOT_CA[12];
    assert COMODO_ROOT_CA[4] != VERISIGN_ROOT_CA[4];
    if Match(AMAZON_HOST, hostname) then AMAZON_ROOT_CA
    else if Match(LG_HOST, hostname) then COMODO_ROOT_CA
    else VERISIGN_ROOT_CA
  }

  /** `Lits(w)` matches exactly the word `w`, followed by what the rest of the pattern matches. */
  lemma {:induction false} MatchLits(w: string, rest: seq<Pat>, s: string)
    requires Match(rest, s)
    ensures Match(Lits(w) + rest, w + s)
  {
    if w == [] {
      assert Lits(w) + rest == rest;
      assert w + s == s;
    } else {
      MatchLits(w[1..], rest, s);
      assert (Lits(w) + rest)[0] == Lit(w[0]);
      assert (Lits(w) + rest)[1..] == Lits(w[1..]) + rest;
      assert (w + s)[0] == w[0];
      assert (w + s)[1..] == w[1..] + s;
    }
  }

  /** A pattern matching `s1` followed by one matching `s2` matches `s1 + s2`. */
  lemma {:induction false} MatchAppend(p1: seq<Pat>, s1: string, p2: seq<Pat>, s2: string)
    requires Match(p1, s1) && Match(p2, s2)
    ensures Match(p1 + p2, s1 + s2)
    decreases |p1|
  {
    if p1 == [] {
      assert p1 + p2 == p2;
      assert s1 + s2 == s2;
    } else {
      var p, s := p1 + p2, s1 + s2;
      assert p[0] == p1[0];
      assert p[1..] == p1[1..] + p2;
      if p1[0].NonDotRun? {
        var k :| 1 <= k <= |s1| && NoDot(s1[..k]) && Match(p1[1..], s1[k..]);
        MatchAppend(p1[1..], s1[k..], p2, s2);
        assert s[..k] == s1[..k];
        assert s[k..] == s1[k..] + s2;
      } else {
        MatchAppend(p1[1..], s1[1..], p2, s2);
        assert s[0] == s1[0] && s[1..] == s1[1..] + s2;
      }
    }
  }

  lemma {:induction false} MatchWord(w: string)
    ensures Match(Lits(w), w)
  {
    if w != [] {
      MatchWord(w[1..]);
      assert Lits(w)[1..] == Lits(w[1..]);
    }
  }

  lemma MatchOneChar(c: char)
    requires !IsLineTerminator(c)
    ensures Match([AnyChar], [c])
  {
    assert [AnyChar][1..] == [];
    assert [c][1..] == [];
  }

  lemma MatchRun(w: string)
    requires w != [] && NoDot(w)
    ensures Match([NonDotRun], w)
  {
    assert w[..|w|] == w;
    assert [NonDotRun][1..] == [];
  }

  lemma Regroup(h: string, a: string, b: string, c: string)
    ensures h + (a + b + c) == h + a + b + c
  {
  }

  lemma CharFromEnd(x: string, w: string, i: nat)
    requires i < |w|
    ensures (x + w)[|x + w| - |w| + i] == w[i]
  {
  }

  lemma AtsHeadMatches(account: string, region: string, d1: char, d2: char, d3: char)
    requires account != [] && NoDot(account) && region != [] && NoDot(region)
    requires !IsLineTerminator(d1) && !IsLineTerminator(d2) && !IsLineTerminator(d3)
    ensures Match(AMAZON_HEAD, account + "-ats" + [d1] + "iot" + [d2] + region + [d3])
  {
    MatchRun(account);
    MatchWord("-ats");
    MatchOneChar(d1);
    MatchOneChar(d2);
    MatchOneChar(d3);
    MatchWord("iot");
    MatchRun(region);
    MatchAppend([NonDotRun], account, Lits("-ats"), "-ats");
    MatchAppend([NonDotRun] + Lits("-ats"), account + "-ats", [AnyChar], [d1]);
    MatchAppend([NonDotRun] + Lits("-ats") + [AnyChar], account + "-ats" + [d1], Lits("iot"), "iot");
    MatchAppend([NonDotRun] + Lits("-ats") + [AnyChar] + Lits("iot"), account + "-ats" + [d1] + "iot", [AnyChar], [d2]);
    MatchAppend([NonDotRun] + Lits("-ats") + [AnyChar] + Lits("iot") + [AnyChar],
      account + "-ats" + [d1] + "iot" + [d2], [NonDotRun], region);
    MatchAppend([NonDotRun] + Lits("-ats") + [AnyChar] + Lits("iot") + [AnyChar] + [NonDotRun],
      account + "-ats" + [d1] + "iot" + [d2] + region, [AnyChar], [d3]);
  }

  lemma AtsTailMatches(d4: char)
    requires !IsLineTerminator(d4)
    ensures Match(AMAZON_TAIL, "amazonaws" + [d4] + "com")
  {
    MatchOneChar(d4);
    MatchWord("amazonaws");
    MatchWord("com");
    MatchAppend(Lits("amazonaws"), "amazonaws", [AnyChar], [d4]);
    MatchAppend(Lits("amazonaws") + [AnyChar], "amazonaws" + [d4], Lits("com"), "com");
  }

  /**
   * The Amazon pattern matches every `<account>-ats.iot.<region>.amazonaws.com` host, and, since
   * its dots are not escaped, also the same host with any other character in place of each dot.
   */
  lemma AtsHostMatches(account: string, region: string, d1: char, d2: char, d3: char, d4: char)
    requires account != [] && NoDot(account) && region != [] && NoDot(region)
    requires !IsLineTerminator(d1) && !IsLineTerminator(d2) && !IsLineTerminator(d3) && !IsLineTerminator(d4)
    ensures Match(AMAZON_HOST, account + "-ats" + [d1] + "iot" + [d2] + region + [d3] + "amazonaws" + [d4] + "com")
  {
    var head := account + "-ats" + [d1] + "iot" + [d2] + region + [d3];
    AtsHeadMatches(account, region, d1, d2, d3);
    AtsTailMatches(d4);
    MatchAppend(AMAZON_HEAD, head, AMAZON_TAIL, "amazonaws" + [d4] + "com");
    Regroup(head, "amazonaws", [d4], "com");
  }

  /** An AWS ATS endpoint gets the Amazon root. */
  lemma AtsEndpointUsesAmazonRoot(account: string, region: string)
    requires account != [] && NoDot(account) && region != [] && NoDot(region)
    ensures RootCAUrl(account + "-ats" + "." + "iot" + "." + region + "." + "amazonaws" + "." + "com") == AMAZON_ROOT_CA
  {
    AtsHostMatches(account, region, '.', '.', '.', '.');
    assert ['.'] == ".";
  }

  /** A pattern of literals and single-character wildcards only. */
  predicate Fixed(p: seq<Pat>) {
    forall i :: 0 <= i < |p| ==> !p[i].NonDotRun?
  }

  /** A pattern without runs matches only strings of its own length. */
  lemma {:induction false} MatchFixedLength(p: seq<Pat>, s: string)
    requires Fixed(p) && Match(p, s)
    ensures |s| == |p|
    decreases |p|
  {
    if p != [] {
      assert !p[0].NonDotRun?;
      assert Fixed(p[1..]) by {
        forall i | 0 <= i < |p[1..]| ensures !p[1..][i].NonDotRun? {
          assert p[1..][i] == p[i + 1];
        }
      }
      MatchFixedLength(p[1..], s[1..]);
    }
  }

  /** A string matching `p + q` splits into a part matching `p` and a part matching `q`. */
  lemma {:induction false} MatchSplit(p: seq<Pat>, q: seq<Pat>, s: string) returns (k: nat)
    requires Match(p + q, s)
    ensures k <= |s| && Match(p, s[..k]) && Match(q, s[k..])
    decreases |p|
  {
    if p == [] {
      assert p + q == q;
      k := 0;
      assert s[0..] == s;
    } else {
      var j := MatchFirst(p, q, s);
      var k' := MatchSplit(p[1..], q, s[j..]);
      k := j + k';
      MatchHead(p, s, j, k');
      assert s[k..] == s[j..][k'..];
    }
  }

  /** The first step of a match of `p + q`: `j` characters for `p[0]`, the rest matching `p[1..] + q`. */
  lemma MatchFirst(p: seq<Pat>, q: seq<Pat>, s: string) returns (j: nat)
    requires p != [] && Match(p + q, s)
    ensures 1 <= j <= |s| && Match(p[1..] + q, s[j..])
    ensures p[0].NonDotRun? ==> NoDot(s[..j])
    ensures p[0].Lit? ==> j == 1 && s[0] == p[0].c
    ensures p[0].AnyChar? ==> j == 1 && !IsLineTerminator(s[0])
  {
    var pq := p + q;
    assert pq[0] == p[0];
    assert pq[1..] == p[1..] + q;
    if p[0].NonDotRun? {
      j :| 1 <= j <= |s| && NoDot(s[..j]) && Match(pq[1..], s[j..]);
    } else {
      j := 1;
    }
  }

  /** Putting back the first step of a match: `j` characters for `p[0]`, then `k'` for the rest. */
  lemma MatchHead(p: seq<Pat>, s: string, j: nat, k': nat)
    requires p != [] && 1 <= j && j + k' <= |s| && Match(p[1..], s[j..][..k'])
    requires p[0].NonDotRun? ==> NoDot(s[..j])
    requires p[0].Lit? ==> j == 1 && s[0] == p[0].c
    requires p[0].AnyChar? ==> j == 1 && !IsLineTerminator(s[0])
    ensures Match(p, s[..j + k'])
  {
    var t := s[..j + k'];
    assert t[j..] == s[j..][..k'];
    if p[0].NonDotRun? {
      assert t[..j] == s[..j];
      assert 1 <= j <= |t| && NoDot(t[..j]) && Match(p[1..], t[j..]);
    } else {
      assert t[0] == s[0];
    }
  }

  /**
   * When a pattern ends in a fixed tail `t` that starts with a literal, every matching string has
   * that literal `|t|` places from its end.
   */
  lemma TailMatch(p: seq<Pat>, t: seq<Pat>, s: string)
    requires Fixed(t) && t != [] && t[0].Lit?
    ensures Match(p + t, s) ==> |s| >= |t| && s[|s| - |t|] == t[0].c
  {
    if Match(p + t, s) {
      var k := MatchSplit(p, t, s);
      MatchFixedLength(t, s[k..]);
      assert s[k..][0] == s[|s| - |t|];
    }
  }

  lemma AmazonTailIsFixed()
    ensures Fixed(AMAZON_TAIL) && |AMAZON_TAIL| == 13 && AMAZON_TAIL[0] == Lit('a')
  {
    assert Lits("amazonaws")[0] == Lit('a');
  }

  lemma LgTailIsFixed()
    ensures Fixed(LG_TAIL) && |LG_TAIL| == 11 && LG_TAIL[0] == Lit('l')
  {
    assert Lits("lgthinq")[0] == Lit('l');
  }

  lemma LgHeadMatches(account: string)
    requires account != [] && NoDot(account)
    ensures Match(LG_HEAD, account + "." + "iot" + "." + "ruic" + ".")
  {
    assert ['.'] == ".";
    MatchRun(account);
    MatchOneChar('.');
    MatchWord("iot");
    MatchWord("ruic");
    MatchAppend([NonDotRun], account, [AnyChar], ".");
    MatchAppend([NonDotRun] + [AnyChar], account + ".", Lits("iot"), "iot");
    MatchAppend([NonDotRun] + [AnyChar] + Lits("iot"), account + "." + "iot", [AnyChar], ".");
    MatchAppend([NonDotRun] + [AnyChar] + Lits("iot") + [AnyChar], account + "." + "iot" + ".", Lits("ruic"), "ruic");
    MatchAppend([NonDotRun] + [AnyChar] + Lits("iot") + [AnyChar] + Lits("ruic"),
      account + "." + "iot" + "." + "ruic", [AnyChar], ".");
  }

  lemma LgTailMatches()
    ensures Match(LG_TAIL, "lgthinq" + "." + "com")
  {
    assert ['.'] == ".";
    MatchOneChar('.');
    MatchWord("lgthinq");
    MatchWord("com");
    MatchAppend(Lits("lgthinq"), "lgthinq", [AnyChar], ".");
    MatchAppend(Lits("lgthinq") + [AnyChar], "lgthinq" + ".", Lits("com"), "com");
  }

  /** An `<account>.iot.ruic.lgthinq.com` host matches the LG pattern. */
  lemma LgHostMatches(account: string)
    requires account != [] && NoDot(account)
    ensures Match(LG_HOST, account + "." + "iot" + "." + "ruic" + "." + "lgthinq" + "." + "com")
  {
    var head := account + "." + "iot" + "." + "ruic" + ".";
    LgHeadMatches(account);
    LgTailMatches();
    MatchAppend(LG_HEAD, head, LG_TAIL, "lgthinq" + "." + "com");
    Regroup(head, "lgthinq", ".", "com");
  }

  /** An LG-owned push host gets the Comodo root: it cannot end in `amazonaws.com`. */
  lemma LgEndpointUsesComodoRoot(account: string)
    requires account != [] && NoDot(account)
    ensures RootCAUrl(account + "." + "iot" + "." + "ruic" + "." + "lgthinq" + "." + "com") == COMODO_ROOT_CA
  {
    var host := account + "." + "iot" + "." + "ruic" + "." + "lgthinq" + "." + "com";
    LgHostMatches(account);
    AmazonTailIsFixed();
    assert host[|host| - 13] == 'c';
    TailMatch(AMAZON_HEAD, AMAZON_TAIL, host);
  }

  /** A run that reaches past a dot is not dot-free. */
  lemma DotBreaksRun(s: string, k: nat, d: nat)
    requires d < k <= |s| && s[d] == '.'
    ensures !NoDot(s[..k])
  {
    assert s[..k][d] == '.';
  }

  /**
   * The Amazon pattern's first run cannot cross the account's own dot, so a host it matches has
   * `-ats` inside its account.
   */
  lemma AmazonMatchHasDash(account: string, rest: string)
    requires NoDot(account) && rest != [] && rest[0] == '.'
    ensures Match(AMAZON_HOST, account + rest) ==> exists k :: 0 < k < |account| && account[k] == '-'
  {
    AmazonHostStart();
    RunThenLitInAccount(AMAZON_HOST, account, rest);
  }

  lemma AmazonHostStart()
    ensures |AMAZON_HOST| >= 2 && AMAZON_HOST[0] == NonDotRun && AMAZON_HOST[1] == Lit('-')
  {
    var start := [NonDotRun] + Lits("-ats");
    assert start[0] == NonDotRun && start[1] == Lit('-');
    assert AMAZON_HEAD[..2] == start[..2];
    assert AMAZON_HOST[..2] == AMAZON_HEAD[..2];
  }

  /** When the account is followed by a dot, a run then a literal puts the literal in the account. */
  lemma RunThenLitInAccount(p: seq<Pat>, account: string, rest: string)
    requires |p| >= 2 && p[0].NonDotRun? && p[1].Lit? && p[1].c != '.'
    requires NoDot(account) && rest != [] && rest[0] == '.'
    ensures Match(p, account + rest) ==> exists k :: 0 < k < |account| && account[k] == p[1].c
  {
    var s := account + rest;
    RunThenLit(p, s);
    if Match(p, s) {
      var k :| 1 <= k < |s| && NoDot(s[..k]) && s[k] == p[1].c;
      if k > |account| {
        DotBreaksRun(s, k, |account|);
      }
      assert account[k] == p[1].c;
    }
  }

  /** A run followed by a literal: the literal comes right after some dot-free prefix. */
  lemma RunThenLit(p: seq<Pat>, s: string)
    requires |p| >= 2 && p[0].NonDotRun? && p[1].Lit?
    ensures Match(p, s) ==> exists k :: 1 <= k < |s| && NoDot(s[..k]) && s[k] == p[1].c
  {
    if Match(p, s) {
      var k :| 1 <= k <= |s| && NoDot(s[..k]) && Match(p[1..], s[k..]);
      assert p[1..][0] == p[1];
      assert s[k..][0] == s[k];
    }
  }

  /** A legacy AWS push host (no `-ats` in its account) gets the VeriSign root. */
  lemma LegacyEndpointUsesVeriSignRoot(account: string, region: string)
    requires NoDot(account) && forall i :: 0 <= i < |account| ==> account[i] != '-'
    ensures RootCAUrl(account + "." + "iot" + "." + region + "." + "amazonaws" + "." + "com") == VERISIGN_ROOT_CA
  {
    LegacyHostIsNotAts(account, region);
    LegacyHostIsNotLg(account, region);
  }

  lemma LegacyHostIsNotAts(account: string, region: string)
    requires NoDot(account) && forall i :: 0 <= i < |account| ==> account[i] != '-'
    ensures !Match(AMAZON_HOST, account + "." + "iot" + "." + region + "." + "amazonaws" + "." + "com")
  {
    var rest := "." + "iot" + "." + region + "." + "amazonaws" + "." + "com";
    assert account + "." + "iot" + "." + region + "." + "amazonaws" + "." + "com" == account + rest;
    AmazonMatchHasDash(account, rest);
  }

  lemma LegacyHostIsNotLg(account: string, region: string)
    ensures !Match(LG_HOST, account + "." + "iot" + "." + region + "." + "amazonaws" + "." + "com")
  {
    var head := account + "." + "iot" + "." + region + ".";
    Regroup(head, "amazonaws", ".", "com");
    LgTailIsFixed();
    CharFromEnd(head, "amazonaws" + "." + "com", 2);
    TailMatch(LG_HEAD, LG_TAIL, account + "." + "iot" + "." + region + "." + "amazonaws" + "." + "com");
  }

  // ---------------------------------------------------------------------------------------------
  // CSR preparation

  const BEGIN_MARKER := "-----BEGIN CERTIFICATE REQUEST-----"
  const END_MARKER := "-----END CERTIFICATE REQUEST-----"

  /** The first replacement: every marker is removed, scanning left to right without overlap. */
  function StripMarkers(s: string): (r: string)
    ensures |r| <= |s|
    decreases |s|
  {
    if s == [] then []
    else if StartsWith(s, BEGIN_MARKER) then StripMarkers(s[|BEGIN_MARKER|..])
    else if StartsWith(s, END_MARKER) then StripMarkers(s[|END_MARKER|..])
    else [s[0]] + StripMarkers(s[1..])
  }

  predicate IsLineBreak(c: char) {
    c == '\r' || c == '\n'
  }

  /** The second replacement: removing `\r\n`, `\r` and `\n` removes every CR and LF character. */
  function RemoveLineBreaks(s: string): (r: string)
    ensures forall i :: 0 <= i < |r| ==> !IsLineBreak(r[i])
    ensures |r| <= |s|
  {
    if s == [] then []
    else if IsLineBreak(s[0]) then RemoveLineBreaks(s[1..])
    else [s[0]] + RemoveLineBreaks(s[1..])
  }

  /** The `csr` value submitted for the client certificate: free of line breaks whatever the input. */
  function CsrForSubmission(csr: string): (r: string)
    ensures forall i :: 0 <= i < |r| ==> !IsLineBreak(r[i])
  {
    RemoveLineBreaks(StripMarkers(csr))
  }

  predicate NoDash(s: string) {
    forall i :: 0 <= i < |s| ==> s[i] != '-'
  }

  /** A mismatch at position `j`, or a string too short, means no match of the prefix. */
  lemma MismatchAt(s: string, prefix: string, j: nat)
    requires j < |prefix|
    requires |prefix| > |s| || s[j] != prefix[j]
    ensures !StartsWith(s, prefix)
  {
    if |prefix| <= |s| {
      assert s[..|prefix|][j] != prefix[j];
    }
  }

  lemma {:induction false} StripMarkersSkipsDashFree(a: string, b: string)
    requires NoDash(a)
    ensures StripMarkers(a + b) == a + StripMarkers(b)
    decreases |a|
  {
    if a == [] {
      assert a + b == b;
    } else {
      var s := a + b;
      assert s[0] == a[0];
      MismatchAt(s, BEGIN_MARKER, 0);
      MismatchAt(s, END_MARKER, 0);
      assert s[1..] == a[1..] + b;
      StripMarkersSkipsDashFree(a[1..], b);
      assert a == [a[0]] + a[1..];
    }
  }

  lemma {:induction false} RemoveLineBreaksAppend(a: string, b: string)
    ensures RemoveLineBreaks(a + b) == RemoveLineBreaks(a) + RemoveLineBreaks(b)
    decreases |a|
  {
    if a == [] {
      assert a + b == b;
    } else {
      assert (a + b)[0] == a[0];
      assert (a + b)[1..] == a[1..] + b;
      RemoveLineBreaksAppend(a[1..], b);
    }
  }

  lemma {:induction false} RemoveLineBreaksNoDash(s: string)
    requires NoDash(s)
    ensures NoDash(RemoveLineBreaks(s))
    decreases |s|
  {
    if s != [] {
      RemoveLineBreaksNoDash(s[1..]);
    }
  }

  lemma {:induction false} NoDashHasNoMarker(s: string, marker: string)
    requires NoDash(s) && marker != [] && marker[0] == '-'
    ensures !Contains(s, marker)
    decreases |s|
  {
    if s != [] {
      MismatchAt(s, marker, 0);
      NoDashHasNoMarker(s[1..], marker);
    }
  }

  lemma StripAfterBegin(x: string)
    ensures StripMarkers(BEGIN_MARKER + x) == StripMarkers(x)
  {
    var s := BEGIN_MARKER + x;
    assert s[..|BEGIN_MARKER|] == BEGIN_MARKER;
    assert s[|BEGIN_MARKER|..] == x;
  }

  lemma StripAfterEnd(x: string)
    ensures StripMarkers(END_MARKER + x) == StripMarkers(x)
  {
    var s := END_MARKER + x;
    MismatchAt(s, BEGIN_MARKER, 5);
    assert s[..|END_MARKER|] == END_MARKER;
    assert s[|END_MARKER|..] == x;
  }

  /** The header and footer go, and a dash-free body and tail are kept as they are. */
  lemma StripPem(body: string, tail: string)
    requires NoDash(body) && NoDash(tail)
    ensures StripMarkers(BEGIN_MARKER + body + END_MARKER + tail) == body + tail
  {
    var e := END_MARKER + tail;
    assert BEGIN_MARKER + body + END_MARKER + tail == BEGIN_MARKER + (body + e);
    StripAfterBegin(body + e);
    StripMarkersSkipsDashFree(body, e);
    StripAfterEnd(tail);
    StripMarkersSkipsDashFree(tail, []);
    assert tail + [] == tail;
  }

  /**
   * For a PEM-encoded request (header, base64 body with its line breaks, footer, trailing line
   * break) the submitted value is the body and tail without line breaks, and it holds no marker.
   */
  lemma PemRequestIsUnwrapped(body: string, tail: string)
    requires NoDash(body) && NoDash(tail)
    ensures CsrForSubmission(BEGIN_MARKER + body + END_MARKER + tail) == RemoveLineBreaks(body + tail)
    ensures !Contains(CsrForSubmission(BEGIN_MARKER + body + END_MARKER + tail), BEGIN_MARKER)
    ensures !Contains(CsrForSubmission(BEGIN_MARKER + body + END_MARKER + tail), END_MARKER)
  {
    StripPem(body, tail);
    var r := RemoveLineBreaks(body + tail);
    assert NoDash(body + tail);
    RemoveLineBreaksNoDash(body + tail);
    NoDashHasNoMarker(r, BEGIN_MARKER);
    NoDashHasNoMarker(r, END_MARKER);
  }

  /** With no marker at any position, the first replacement changes nothing. */
  lemma {:induction false} StripMarkersWithoutMarkers(s: string)
    requires forall i :: 0 <= i <= |s| ==> !StartsWith(s[i..], BEGIN_MARKER) && !StartsWith(s[i..], END_MARKER)
    ensures StripMarkers(s) == s
    decreases |s|
  {
    if s != [] {
      assert s[0..] == s;
      forall i | 0 <= i <= |s[1..]|
        ensures !StartsWith(s[1..][i..], BEGIN_MARKER) && !StartsWith(s[1..][i..], END_MARKER)
      {
        assert s[1..][i..] == s[i + 1..];
      }
      StripMarkersWithoutMarkers(s[1..]);
      assert s == [s[0]] + s[1..];
    }
  }

  lemma {:induction false} RemoveLineBreaksOfPlain(s: string)
    requires NoLineBreak(s)
    ensures RemoveLineBreaks(s) == s
    decreases |s|
  {
    if s != [] {
      RemoveLineBreaksOfPlain(s[1..]);
      assert s == [s[0]] + s[1..];
    }
  }

  /** The header cut by a line break before its closing dashes. */
  const BROKEN_HEADER := "-----BEGIN CERTIFICATE REQUEST" + "\n" + "-----"

  lemma BrokenHeaderHasNoMarker(i: nat)
    requires i <= |BROKEN_HEADER|
    ensures !StartsWith(BROKEN_HEADER[i..], BEGIN_MARKER) && !StartsWith(BROKEN_HEADER[i..], END_MARKER)
  {
    var s := BROKEN_HEADER;
    if i == 0 {
      assert s[0..][30] == '\n';
      MismatchAt(s[0..], BEGIN_MARKER, 30);
      assert s[0..][5] == 'B';
      MismatchAt(s[0..], END_MARKER, 5);
    } else if i <= 3 {
      assert s[i..][4] == s[i + 4];
      MismatchAt(s[i..], BEGIN_MARKER, 4);
      MismatchAt(s[i..], END_MARKER, 4);
    } else {
      MismatchAt(s[i..], BEGIN_MARKER, 0);
      MismatchAt(s[i..], END_MARKER, 0);
    }
  }

  lemma BrokenHeaderIsNotStripped()
    ensures StripMarkers(BROKEN_HEADER) == BROKEN_HEADER
  {
    forall i | 0 <= i <= |BROKEN_HEADER|
      ensures !StartsWith(BROKEN_HEADER[i..], BEGIN_MARKER) && !StartsWith(BROKEN_HEADER[i..], END_MARKER)
    {
      BrokenHeaderHasNoMarker(i);
    }
    StripMarkersWithoutMarkers(BROKEN_HEADER);
  }

  predicate NoLineBreak(s: string) {
    forall i :: 0 <= i < |s| ==> !IsLineBreak(s[i])
  }

  lemma JoinAcrossBreak(x: string, y: string)
    requires NoLineBreak(x) && NoLineBreak(y)
    ensures RemoveLineBreaks(x + "\n" + y) == x + y
  {
    RemoveLineBreaksAppend(x + "\n", y);
    RemoveLineBreaksAppend(x, "\n");
    RemoveLineBreaksOfPlain(x);
    RemoveLineBreaksOfPlain(y);
    assert RemoveLineBreaks("\n") == [];
  }

  lemma BrokenHeaderJoins()
    ensures RemoveLineBreaks(BROKEN_HEADER) == BEGIN_MARKER
  {
    var a := "-----BEGIN CERTIFICATE REQUEST";
    assert NoLineBreak(a);
    JoinAcrossBreak(a, "-----");
    assert a + "-----" == BEGIN_MARKER;
  }

  /**
   * The markers are removed before the line breaks, so a header broken by a line break is
   * put back together by the second replacement and submitted.
   */
  lemma BrokenMarkerSurvives()
    ensures CsrForSubmission(BROKEN_HEADER) == BEGIN_MARKER
  {
    BrokenHeaderIsNotStripped();
    BrokenHeaderJoins();
  }

  // ---------------------------------------------------------------------------------------------
  // The client object

  const MQTT_ATTEMPTS := 5
  const MQTT_RETRY_DELAY_MS := 5000

  class ThinQ {
    const api: Api
    /** The network and the service, as the request pipeline sees them. */
    const network: Env
    /** Every `deviceControl` call so far, in order. */
    var sent: seq<Command>
    /** How many transport-level calls the control requests have made so far. */
    var calls: nat
    /** The persistent cache: device id to raw device model. */
    var persist: map<string, Value>
    /** `deviceModel`: the models loaded in this run. */
    var deviceModels: map<string, Value>

    constructor (api: Api, network: Env, persist: map<string, Value>)
      ensures this.api == api && this.network == network && this.persist == persist
      ensures sent == [] && calls == 0 && deviceModels == map[]
    {
      this.api := api;
      this.network := network;
      this.persist := persist;
      sent := [];
      calls := 0;
      deviceModels := map[];
    }

    /** `devices()`: the listed device records, or none when listing throws. */
    method Devices(homesResponse: Value, respond: Value -> Value) returns (devices: seq<Value>)
      modifies api`homes
      ensures var l := ListDevices(old(api.homes), homesResponse, respond);
        devices == if l.Ok? then l.value else []
    {
      var listed := api.GetListDevices(homesResponse, respond);
      devices := if listed.Ok? then listed.value else [];
    }

    /**
     * `loadDeviceModel`: a falsy cache entry is fetched from the device's model URL and stored;
     * either way the model is recorded for the device. `fetched` is the downloaded body, `None`
     * if the download is rejected (and then so is the call). `fetchedRemote` says whether it was
     * downloaded.
     */
    method LoadDeviceModel(device: Device, fetched: Option<Value>) returns (model: Option<Value>, fetchedRemote: bool)
      modifies this`persist, this`deviceModels, device`deviceModel
      ensures fetchedRemote <==> !Truthy(Get(old(persist), device.id))
      ensures !fetchedRemote ==> model == Some(Get(old(persist), device.id)) && persist == old(persist)
      ensures fetchedRemote ==> model == fetched
      ensures fetchedRemote && fetched.Some? ==> persist == old(persist)[device.id := fetched.value]
      ensures fetchedRemote && fetched.None? ==> persist == old(persist)
      ensures model.Some? ==> deviceModels == old(deviceModels)[device.id := model.value] && device.deviceModel == model.value
      ensures model.None? ==> deviceModels == old(deviceModels) && device.deviceModel == old(device.deviceModel)
    {
      var cached := Get(persist, device.id);
      fetchedRemote := !Truthy(cached);
      if fetchedRemote {
        if fetched.None? {
          model := None;
          return;
        }
        cached := fetched.value;
        persist := persist[device.id := cached];
      }
      model := Some(cached);
      deviceModels := deviceModels[device.id := cached];
      device.deviceModel := cached;
    }

    /**
     * `deviceControl(device, values, command, ctrlKey)`: the command is sent through `request`,
     * which never rejects, so the promise resolves to the request's own result (the reply body,
     * or `{}` after a failure) and the same-value branch of the rejection handler is never taken.
     */
    method DeviceControl(target: Target, values: map<string, Value>, command: CommandKind, ctrlKey: string)
      returns (resolved: Value)
      modifies this`sent, this`calls
      ensures sent == old(sent) + [Command(TargetId(target), values, command, ctrlKey)]
      ensures var t := Request(network, false, old(calls));
        resolved == t.result && calls == old(calls) + t.calls
    {
      var t := Request(network, false, calls);
      resolved := ControlResult(Ok(t.result));
      assert resolved == t.result;
      sent := sent + [Command(TargetId(target), values, command, ctrlKey)];
      calls := calls + t.calls;
    }

    /**
     * `registerMQTTListener`: up to five start-up attempts, 5 s apart, stopping at the first that
     * succeeds. `connect(i)` is whether attempt `i` succeeds; `waitedMs` the time spent waiting.
     */
    method RegisterMQTTListener(connect: nat -> bool) returns (attempts: nat, connected: bool, waitedMs: nat)
      ensures 1 <= attempts <= MQTT_ATTEMPTS
      ensures connected <==> connect(attempts - 1)
      ensures forall i :: 0 <= i < attempts - 1 ==> !connect(i)
      ensures !connected ==> attempts == MQTT_ATTEMPTS
      ensures waitedMs == MQTT_RETRY_DELAY_MS * (if connected then attempts - 1 else attempts)
    {
      var tried := MQTT_ATTEMPTS;
      attempts := 0;
      connected := false;
      waitedMs := 0;
      while tried > 0
        invariant 0 <= tried <= MQTT_ATTEMPTS && attempts == MQTT_ATTEMPTS - tried
        invariant forall i :: 0 <= i < attempts ==> !connect(i)
        invariant waitedMs == MQTT_RETRY_DELAY_MS * attempts
      {
        if connect(attempts) {
          attempts := attempts + 1;
          connected := true;
          return;
        }
        tried := tried - 1;
        attempts := attempts + 1;
        waitedMs := waitedMs + MQTT_RETRY_DELAY_MS;
      }
    }
  }
}
