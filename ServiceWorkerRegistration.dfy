/** Registration of the offline-caching service worker: the loopback-host test
    that decides whether the worker script is validated first, and the two
    branch decisions of `register` and `checkValidServiceWorker`.  Fetching,
    registering, unregistering and reloading are browser calls; only the choice
    between them is modelled, as an action value. */
module ServiceWorkerRegistration {

  // ---------------------------------------------------------------------
  // The hostname pattern  ^127(?:\.(?:25[0-5]|2[0-4]\d|[01]?\d?\d)){3}$
  // written out alternative by alternative.
  // ---------------------------------------------------------------------

  /** `\d`: one decimal digit. */
  predicate IsDigit(c: char) {
    '0' <= c <= '9'
  }

  /** `[01]` */
  predicate IsZeroOrOne(c: char) {
    c == '0' || c == '1'
  }

  /** The octet alternation `25[0-5]|2[0-4]\d|[01]?\d?\d`, matched against
      the whole of `s`.  Whatever it matches is one to three digits. */
  predicate OctetPattern(s: string)
    ensures OctetPattern(s) ==> 1 <= |s| <= 3 && AllDigits(s)
  {
    // 25[0-5]
    (|s| == 3 && s[0] == '2' && s[1] == '5' && '0' <= s[2] <= '5') ||
    // 2[0-4]\d
    (|s| == 3 && s[0] == '2' && '0' <= s[1] <= '4' && IsDigit(s[2])) ||
    // [01]?\d?\d with both optional parts absent, one of them present, or both
    (|s| == 1 && IsDigit(s[0])) ||
    (|s| == 2 && IsZeroOrOne(s[0]) && IsDigit(s[1])) ||
    (|s| == 2 && IsDigit(s[0]) && IsDigit(s[1])) ||
    (|s| == 3 && IsZeroOrOne(s[0]) && IsDigit(s[1]) && IsDigit(s[2]))
  }

  /** `(?:\.(?:octet)){n}$`: exactly `n` groups, each a dot followed by an
      octet of one to three characters, and nothing after the last one.  The
      regular-expression engine may try each octet length; `exists` stands for
      that backtracking.  A match starts with a dot (when `n` is positive)
      and is two to four characters long per group. */
  predicate DotOctets(s: string, n: nat)
    ensures DotOctets(s, n) ==> 2 * n <= |s| <= 4 * n && (n > 0 ==> s[0] == '.')
    decreases n, 0
  {
    if n == 0 then s == []
    else exists k :: 1 <= k <= 3 && DotGroup(s, k, n)
  }

  /** The first of `n` groups is a dot and the octet `s[1..k + 1]`, and the
      remaining `n - 1` groups follow it. */
  predicate DotGroup(s: string, k: nat, n: nat)
    requires 1 <= n
    ensures DotGroup(s, k, n) ==> 1 <= k <= 3 && 2 * n <= |s| <= 4 * n && s[0] == '.'
    decreases n - 1, 1
  {
    k < |s| && s[0] == '.' && OctetPattern(s[1..k + 1]) && DotOctets(s[k + 1..], n - 1)
  }

  /** `^127(?:\.(?:octet)){3}$`: a match is `127.` followed by the rest,
      nine to fifteen characters in all. */
  predicate LoopbackPattern(host: string)
    ensures LoopbackPattern(host) ==> 9 <= |host| <= 15 && host[..4] == "127."
  {
    |host| >= 3 && host[..3] == "127" && DotOctets(host[3..], 3)
  }

  /** The module-level `isLocalhost` flag, for the given `window.location.hostname`.
      Every host it accepts is five to fifteen characters long. */
  predicate IsLocalhost(host: string)
    ensures IsLocalhost(host) ==> 5 <= |host| <= 15
  {
    host == "localhost" || host == "[::1]" || LoopbackPattern(host)
  }

  // ---------------------------------------------------------------------
  // An independent reading of the same test: split the host at its dots and
  // look at the numeric value of each field.
  // ---------------------------------------------------------------------

  predicate AllDigits(s: string) {
    forall i :: 0 <= i < |s| ==> IsDigit(s[i])
  }

  function DigitValue(c: char): nat
    requires IsDigit(c)
  {
    c as nat - '0' as nat
  }

  /** The decimal value of a string of digits, most significant digit first. */
  function DecimalValue(s: string): nat
    requires AllDigits(s)
  {
    if s == [] then 0 else 10 * DecimalValue(s[..|s| - 1]) + DigitValue(s[|s| - 1])
  }

  /** A dotted-quad field of one to three decimal digits whose value is at most
      255; leading zeros allowed. */
  predicate ValidOctet(s: string) {
    1 <= |s| <= 3 && AllDigits(s) && DecimalValue(s) <= 255
  }

  /** The fields of `s` between its dots; `s` with no dot is one field. */
  function SplitDots(s: string): (fields: seq<string>)
    ensures |fields| >= 1
  {
    if s == [] then [[]]
    else
      var rest := SplitDots(s[1..]);
      if s[0] == '.' then [[]] + rest else [[s[0]] + rest[0]] + rest[1..]
  }

  /** 127.a.b.c with every one of a, b, c a valid octet: the IPv4 loopback
      block 127.0.0.0/8 (section 3.2.1.3 of RFC 1122). */
  predicate LoopbackAddress(host: string) {
    var fields := SplitDots(host);
    |fields| == 4 && fields[0] == "127" &&
    ValidOctet(fields[1]) && ValidOctet(fields[2]) && ValidOctet(fields[3])
  }

  /** The loopback names accepted: `localhost`, the IPv6 loopback `::1` in
      its bracketed URL-host form (section 2.5.3 of RFC 4291), or an IPv4
      loopback address. */
  predicate LoopbackHost(host: string) {
    host == "localhost" || host == "[::1]" || LoopbackAddress(host)
  }

  // ---------------------------------------------------------------------
  // The pattern and the reading agree.
  // ---------------------------------------------------------------------

  /** The octet alternation accepts exactly the one-to-three-digit strings of
      value at most 255. */
  lemma OctetPatternIsValidOctet(s: string)
    ensures OctetPattern(s) <==> ValidOctet(s)
  {
    if 1 <= |s| <= 3 && AllDigits(s) {
      assert s[..0] == [];
      assert DecimalValue(s[..1]) == DigitValue(s[0]) by {
        assert s[..1][..0] == [];
      }
      if |s| >= 2 {
        assert DecimalValue(s[..2]) == 10 * DigitValue(s[0]) + DigitValue(s[1]) by {
          assert s[..2][..1] == s[..1];
        }
      }
      if |s| == 3 {
        assert s[..3] == s;
        assert DecimalValue(s) == 100 * DigitValue(s[0]) + 10 * DigitValue(s[1]) + DigitValue(s[2]) by {
          assert s[..2] == s[..|s| - 1];
        }
      } else if |s| == 2 {
        assert s[..2] == s;
      } else {
        assert s[..1] == s;
      }
    }
  }

  lemma {:induction false} SplitDotFree(a: string)
    requires '.' !in a
    ensures SplitDots(a) == [a]
  {
    if a != [] {
      assert a[0] != '.' && '.' !in a[1..];
      SplitDotFree(a[1..]);
      assert [a[0]] + a[1..] == a;
    }
  }

  /** A dot-free field followed by a dot is split off as the first field. */
  lemma {:induction false} SplitAfterField(a: string, b: string)
    requires '.' !in a
    ensures SplitDots(a + "." + b) == [a] + SplitDots(b)
  {
    if a == [] {
      assert a + "." + b == "." + b;
      assert ("." + b)[1..] == b;
    } else {
      assert a[0] != '.' && '.' !in a[1..];
      SplitAfterField(a[1..], b);
      assert (a + "." + b)[1..] == a[1..] + "." + b;
      assert [a[0]] + a[1..] == a;
    }
  }

  /** How the first field sits at the head of the string: it is a prefix,
      and either it is all of it or a dot follows whose remainder splits into
      the remaining fields. */
  lemma {:induction false} SplitHead(s: string)
    ensures var f := SplitDots(s);
      |f[0]| <= |s| && s[..|f[0]|] == f[0] &&
      (|f| == 1 ==> s == f[0]) &&
      (|f| > 1 ==> |f[0]| < |s| && s[|f[0]|] == '.' && SplitDots(s[|f[0]| + 1..]) == f[1..])
  {
    if s != [] {
      SplitHead(s[1..]);
      var rest := SplitDots(s[1..]);
      if s[0] != '.' {
        var h := rest[0];
        assert s[..|h| + 1] == [s[0]] + s[1..][..|h|];
        if |rest| > 1 {
          assert s[|h| + 1 + 1..] == s[1..][|h| + 1..];
        }
      }
    }
  }

  lemma OctetIsDotFree(s: string)
    requires ValidOctet(s)
    ensures '.' !in s
  {
  }

  /** All of `fields` are valid octets. */
  predicate AllOctets(fields: seq<string>) {
    forall i :: 0 <= i < |fields| ==> ValidOctet(fields[i])
  }

  lemma AllOctetsCons(o: string, g: seq<string>)
    requires ValidOctet(o) && AllOctets(g)
    ensures AllOctets([o] + g)
  {
    forall i | 0 <= i < |g| + 1 ensures ValidOctet(([o] + g)[i]) {
      if i > 0 { assert ([o] + g)[i] == g[i - 1]; }
    }
  }

  /** The first of the groups: its octet is valid and is the first field. */
  lemma GroupHead(s: string, k: nat, n: nat)
    requires n > 0 && DotGroup(s, k, n)
    ensures ValidOctet(s[1..k + 1])
    ensures n == 1 ==> SplitDots(s[1..]) == [s[1..k + 1]]
    ensures n > 1 ==> k + 1 < |s| && DotOctets(s[k + 1..], n - 1) &&
                      SplitDots(s[1..]) == [s[1..k + 1]] + SplitDots(s[k + 2..])
  {
    var o, rest := s[1..k + 1], s[k + 1..];
    assert s[1..] == o + rest;
    OctetPatternIsValidOctet(o);
    OctetIsDotFree(o);
    if n == 1 {
      assert rest == [];
      SplitDotFree(o);
      assert s[1..] == o;
    } else {
      var k' :| 1 <= k' <= 3 && DotGroup(rest, k', n - 1);
      assert rest == "." + s[k + 2..];
      SplitAfterField(o, s[k + 2..]);
      assert s[1..] == o + "." + s[k + 2..];
    }
  }

  /** A match of `n` dot-octet groups is a dot followed by `n` valid fields. */
  lemma {:induction false} DotOctetsHasFields(s: string, n: nat)
    requires n > 0 && DotOctets(s, n)
    ensures |s| > 0 && s[0] == '.'
    ensures |SplitDots(s[1..])| == n && AllOctets(SplitDots(s[1..]))
  {
    var k :| 1 <= k <= 3 && DotGroup(s, k, n);
    GroupHead(s, k, n);
    if n > 1 {
      var rest := s[k + 1..];
      DotOctetsHasFields(rest, n - 1);
      assert rest[1..] == s[k + 2..];
      AllOctetsCons(s[1..k + 1], SplitDots(s[k + 2..]));
    }
  }

  /** Conversely, a dot followed by `n` valid fields matches `n` groups. */
  lemma {:induction false} FieldsHaveDotOctets(s: string, n: nat)
    requires n > 0 && |s| > 0 && s[0] == '.'
    requires |SplitDots(s[1..])| == n && AllOctets(SplitDots(s[1..]))
    ensures DotOctets(s, n)
  {
    var t := s[1..];
    var f := SplitDots(t);
    SplitHead(t);
    var k := |f[0]|;
    assert ValidOctet(f[0]);
    OctetPatternIsValidOctet(f[0]);
    assert s[1..k + 1] == f[0];
    if n > 1 {
      var rest := s[k + 1..];
      assert rest[1..] == t[k + 1..];
      assert SplitDots(rest[1..]) == f[1..];
      FieldsHaveDotOctets(rest, n - 1);
    }
    assert DotGroup(s, k, n);
  }

  lemma PatternIsAddress(host: string)
    requires LoopbackPattern(host)
    ensures LoopbackAddress(host)
  {
    var t := host[3..];
    DotOctetsHasFields(t, 3);
    var g := SplitDots(t[1..]);
    assert t[1..] == host[4..];
    assert host == "127" + "." + host[4..];
    SplitAfterField("127", host[4..]);
    assert SplitDots(host) == ["127"] + g;
    assert ValidOctet(g[0]) && ValidOctet(g[1]) && ValidOctet(g[2]);
  }

  lemma AddressIsPattern(host: string)
    requires LoopbackAddress(host)
    ensures LoopbackPattern(host)
  {
    var f := SplitDots(host);
    SplitHead(host);
    var t := host[3..];
    assert t[1..] == host[4..];
    assert SplitDots(t[1..]) == f[1..];
    assert AllOctets(f[1..]) by {
      forall i | 0 <= i < 3 ensures ValidOctet(f[1..][i]) {
        assert f[1..][i] == f[i + 1];
      }
    }
    FieldsHaveDotOctets(t, 3);
  }

  /** The anchored pattern accepts exactly the IPv4 loopback addresses. */
  lemma LoopbackPatternIsLoopbackAddress(host: string)
    ensures LoopbackPattern(host) <==> LoopbackAddress(host)
  {
    if LoopbackPattern(host) {
      PatternIsAddress(host);
    }
    if LoopbackAddress(host) {
      AddressIsPattern(host);
    }
  }

  /** `isLocalhost` holds exactly for the loopback hosts. */
  lemma IsLocalhostIsLoopbackHost(host: string)
    ensures IsLocalhost(host) <==> LoopbackHost(host)
  {
    LoopbackPatternIsLoopbackAddress(host);
  }

  // ---------------------------------------------------------------------
  // `String.prototype.indexOf` and the two branch decisions.
  // ---------------------------------------------------------------------

  /** `p` occurs in `s` at position `i`. */
  predicate OccursAt(s: string, p: string, i: int) {
    0 <= i && i + |p| <= |s| && s[i..i + |p|] == p
  }

  /** `s.indexOf(p, from)`: the first position at or after `from` where `p`
      occurs, or -1 when there is none. */
  function IndexOfFrom(s: string, p: string, from: nat): (r: int)
    requires from <= |s|
    ensures r == -1 || (from <= r && OccursAt(s, p, r))
    ensures forall j :: from <= j && (r == -1 || j < r) ==> !OccursAt(s, p, j)
    decreases |s| - from
  {
    if from + |p| > |s| then -1
    else if s[from..from + |p|] == p then from
    else IndexOfFrom(s, p, from + 1)
  }

  /** `s.indexOf(p)`: the first position where `p` occurs, or -1. */
  function IndexOf(s: string, p: string): (r: int)
    ensures r == -1 || OccursAt(s, p, r)
    ensures forall j :: 0 <= j && (r == -1 || j < r) ==> !OccursAt(s, p, j)
  {
    IndexOfFrom(s, p, 0)
  }

  /** `indexOf` answers -1 exactly when `p` occurs nowhere in `s`. */
  lemma {:induction false} IndexOfMissing(s: string, p: string)
    ensures IndexOf(s, p) == -1 <==> forall i :: !OccursAt(s, p, i)
  {
    var r := IndexOf(s, p);
    if r != -1 {
      assert OccursAt(s, p, r);
    } else {
      forall i ensures !OccursAt(s, p, i) {
        if 0 <= i {
          assert 0 <= i && (r == -1 || i < r);
        }
      }
    }
  }

  /** What `register` does. */
  datatype RegisterAction =
    | NoServiceWorker  // the browser has no service-worker API: nothing happens
    | ValidateScript   // on a loopback host: `checkValidServiceWorker` first
    | RegisterScript   // anywhere else: `registerValidSW` straight away

  /** The branch choice of `register`, for whether `navigator` has a
      `serviceWorker` and for the page's hostname. */
  function RegisterChoice(hasServiceWorker: bool, host: string): (a: RegisterAction)
    ensures a == NoServiceWorker <==> !hasServiceWorker
    ensures a == ValidateScript <==> hasServiceWorker && LoopbackHost(host)
    ensures a == RegisterScript <==> hasServiceWorker && !LoopbackHost(host)
  {
    IsLocalhostIsLoopbackHost(host);
    if !hasServiceWorker then NoServiceWorker
    else if IsLocalhost(host) then ValidateScript
    else RegisterScript
  }

  datatype Option<T> = None | Some(value: T)

  /** The parts of a fetch response the check looks at: the status and the
      `content-type` header, absent when the server sent none. */
  datatype Response = Response(status: int, contentType: Option<string>)

  /** What `checkValidServiceWorker` does once the fetch settles. */
  datatype ResponseAction =
    | UnregisterAndReload  // no usable worker script: drop the worker, reload the page
    | RegisterWorker       // a JavaScript file came back: register it
    | LogOffline           // the promise was rejected: only the offline message is logged

  /** The response check.  The status is tested first, so a 404 never reads the
      header; otherwise a missing header makes `indexOf` throw on null, and the
      rejection reaches the same `catch` as a failed fetch. */
  function ClassifyResponse(response: Response): (a: ResponseAction)
    ensures a == UnregisterAndReload <==>
      response.status == 404 ||
      (response.contentType.Some? && forall i :: !OccursAt(response.contentType.value, "javascript", i))
    ensures a == LogOffline <==> response.status != 404 && response.contentType.None?
  {
    if response.status == 404 then UnregisterAndReload
    else match response.contentType
      case None => LogOffline
      case Some(contentType) =>
        IndexOfMissing(contentType, "javascript");
        if IndexOf(contentType, "javascript") == -1 then UnregisterAndReload else RegisterWorker
  }

  /** The whole of `checkValidServiceWorker`'s decision, for the fetch's
      outcome: no response at all (the network failed) is the offline case. */
  function CheckValidServiceWorker(fetched: Option<Response>): (a: ResponseAction)
    ensures fetched.None? ==> a == LogOffline
    ensures a == RegisterWorker <==>
      fetched.Some? && fetched.value.status != 404 && fetched.value.contentType.Some? &&
      exists i :: OccursAt(fetched.value.contentType.value, "javascript", i)
  {
    match fetched
    case None => LogOffline
    case Some(response) => ClassifyResponse(response)
  }
}
