/** Concrete hostnames and responses, and what the decisions of
    serviceWorkerRegistration.js make of them.  The refused hosts and the
    JavaScript content type reach their lemmas through a `requires x == "..."`
    parameter rather than as literals in the `ensures`: a literal there gets
    unfolded character by character and the proof grows past the resource
    limit. */
module ServiceWorkerExamples {
  import opened ServiceWorkerRegistration

  /** The fields of `a.b` when `a` and `b` have no dot. */
  lemma SplitTwo(a: string, b: string)
    requires '.' !in a && '.' !in b
    ensures SplitDots(a + "." + b) == [a, b]
  {
    SplitAfterField(a, b);
    SplitDotFree(b);
  }

  /** The fields of `a.b.c` when none of them has a dot. */
  lemma SplitThree(a: string, b: string, c: string)
    requires '.' !in a && '.' !in b && '.' !in c
    ensures SplitDots(a + "." + b + "." + c) == [a, b, c]
  {
    SplitTwo(b, c);
    SplitAfterField(a, b + "." + c);
    assert a + "." + (b + "." + c) == a + "." + b + "." + c;
  }

  /** The fields of `a.b.c.d` when none of them has a dot. */
  lemma SplitFour(a: string, b: string, c: string, d: string)
    requires '.' !in a && '.' !in b && '.' !in c && '.' !in d
    ensures SplitDots(a + "." + b + "." + c + "." + d) == [a, b, c, d]
  {
    SplitThree(b, c, d);
    SplitAfterField(a, b + "." + c + "." + d);
    assert a + "." + (b + "." + c + "." + d) == a + "." + b + "." + c + "." + d;
  }

  /** The fields of `a.b.c.d.e` when none of them has a dot. */
  lemma SplitFive(a: string, b: string, c: string, d: string, e: string)
    requires '.' !in a && '.' !in b && '.' !in c && '.' !in d && '.' !in e
    ensures SplitDots(a + "." + b + "." + c + "." + d + "." + e) == [a, b, c, d, e]
  {
    SplitFour(b, c, d, e);
    SplitAfterField(a, b + "." + c + "." + d + "." + e);
    assert a + "." + (b + "." + c + "." + d + "." + e) == a + "." + b + "." + c + "." + d + "." + e;
  }

  /** `localhost` and the bracketed IPv6 loopback. */
  lemma AcceptedNames()
    ensures IsLocalhost("localhost") && IsLocalhost("[::1]")
  {
  }

  /** The usual IPv4 loopback address. */
  lemma AcceptedLoopback()
    ensures IsLocalhost("127.0.0.1")
  {
    assert "127.0.0.1"[..3] == "127" && "127.0.0.1"[3..] == ".0.0.1";
    assert OctetPattern("0") && OctetPattern("1");
    assert DotGroup(".1", 1, 1) by { assert ".1"[1..2] == "1" && ".1"[2..] == []; }
    assert DotGroup(".0.1", 1, 2) by { assert ".0.1"[1..2] == "0" && ".0.1"[2..] == ".1"; }
    assert DotGroup(".0.0.1", 1, 3) by { assert ".0.0.1"[1..2] == "0" && ".0.0.1"[2..] == ".0.1"; }
  }

  /** Leading zeros are accepted within three digits. */
  lemma AcceptedLeadingZeros()
    ensures IsLocalhost("127.000.01.1")
  {
    assert "127.000.01.1"[..3] == "127" && "127.000.01.1"[3..] == ".000.01.1";
    assert OctetPattern("000") && OctetPattern("01") && OctetPattern("1");
    assert DotGroup(".1", 1, 1) by { assert ".1"[1..2] == "1" && ".1"[2..] == []; }
    assert DotGroup(".01.1", 2, 2) by { assert ".01.1"[1..3] == "01" && ".01.1"[3..] == ".1"; }
    assert DotGroup(".000.01.1", 3, 3) by { assert ".000.01.1"[1..4] == "000" && ".000.01.1"[4..] == ".01.1"; }
  }

  /** A first byte other than 127 is refused. */
  lemma RejectedFirstByte(host: string)
    requires host == "128.0.0.1"
    ensures !IsLocalhost(host)
  {
    assert host[..3] == "128";
  }

  /** Only two groups after 127 are refused. */
  lemma RejectedTooFewGroups(host: string)
    requires host == "127.0.0"
    ensures !IsLocalhost(host)
  {
    IsLocalhostIsLoopbackHost(host);
    assert host == "127" + "." + "0" + "." + "0";
    SplitThree("127", "0", "0");
  }

  /** Four groups after 127 are refused. */
  lemma RejectedTooManyGroups(host: string)
    requires host == "127.0.0.1.5"
    ensures !IsLocalhost(host)
  {
    IsLocalhostIsLoopbackHost(host);
    assert host == "127" + "." + "0" + "." + "0" + "." + "1" + "." + "5";
    SplitFive("127", "0", "0", "1", "5");
  }

  lemma Octet256(o: string)
    requires o == "256"
    ensures !ValidOctet(o)
  {
    OctetPatternIsValidOctet(o);
    assert o[1] == '5' && o[2] == '6';
  }

  /** An octet over 255 is refused. */
  lemma RejectedOctetOver255(host: string)
    requires host == "127.0.0.256"
    ensures !IsLocalhost(host)
  {
    IsLocalhostIsLoopbackHost(host);
    assert host == "127" + "." + "0" + "." + "0" + "." + "256";
    SplitFour("127", "0", "0", "256");
    Octet256("256");
  }

  /** A four-digit octet is refused. */
  lemma RejectedFourDigits(host: string)
    requires host == "127.0.0.1000"
    ensures !IsLocalhost(host)
  {
    IsLocalhostIsLoopbackHost(host);
    assert host == "127" + "." + "0" + "." + "0" + "." + "1000";
    SplitFour("127", "0", "0", "1000");
  }

  /** A trailing character after the last octet is refused. */
  lemma RejectedTrailing(host: string)
    requires host == "127.0.0.1x"
    ensures !IsLocalhost(host)
  {
    IsLocalhostIsLoopbackHost(host);
    assert host == "127" + "." + "0" + "." + "0" + "." + "1x";
    SplitFour("127", "0", "0", "1x");
    assert !IsDigit("1x"[1]);
  }

  /** A script served as JavaScript with status 200 is registered. */
  lemma JavaScriptRegistered(contentType: string)
    requires contentType == "application/javascript; charset=utf-8"
    ensures ClassifyResponse(Response(200, Some(contentType))) == RegisterWorker
  {
    assert contentType == "application/javascript" + "; charset=utf-8";
    assert contentType[12..22] == "javascript";
    assert OccursAt(contentType, "javascript", 12);
  }

  /** A 404, with or without a header, or a page that is not JavaScript, makes
      the worker go away; a missing header on a 200 ends in the offline log. */
  lemma NotFoundOrHtmlUnregistered()
    ensures ClassifyResponse(Response(404, Some("application/javascript"))) == UnregisterAndReload
    ensures ClassifyResponse(Response(404, None)) == UnregisterAndReload
    ensures ClassifyResponse(Response(200, Some("text/html"))) == UnregisterAndReload
    ensures ClassifyResponse(Response(200, None)) == LogOffline
  {
  }
}
