/** The hash-authorization signature: the canonical string the client
    signs, the nonce and date that go into it, and the digest over its
    UTF-8 bytes. SHA-1 itself is a parameter (see `Digest`). */
module Signature {
  import opened Utf8
  import opened Urls

  /** SHA-1's lowercase hex digest, hashlib.sha1(b).hexdigest(), supplied
      by the caller: the model treats the hash as an uninterpreted function. */
  type Digest = seq<byte> -> string

  /** The template make_hash_authorization_signature fills in, read from
      its end: each line ends where the next begins with "\r\n". */
  function NonceLine(nonce: string, apiKey: string): string
  {
    "\r\nX-SuT-Nonce: " + (nonce + ("\r\n" + apiKey))
  }

  function UserLine(userId: string, nonce: string, apiKey: string): string
  {
    "\r\nX-SuT-UID: " + (userId + NonceLine(nonce, apiKey))
  }

  function CompanyLine(companyId: string, userId: string, nonce: string, apiKey: string): string
  {
    "\r\nX-SuT-CID: " + (companyId + UserLine(userId, nonce, apiKey))
  }

  function DateLine(date: string, companyId: string, userId: string, nonce: string, apiKey: string): string
  {
    "\r\nDate: " + (date + CompanyLine(companyId, userId, nonce, apiKey))
  }

  /** The text make_hash_authorization_signature hashes:
      "<method> <path>\r\nDate: <date>\r\nX-SuT-CID: <cid>\r\nX-SuT-UID: <uid>\r\nX-SuT-Nonce: <nonce>\r\n<api key>". */
  function CanonicalString(verb: string, url: string, date: string, companyId: string,
                           userId: string, nonce: string, apiKey: string): (r: string)
    ensures r == verb + (" " + (SignedPath(url) + ("\r\nDate: " + (date + ("\r\nX-SuT-CID: " + (companyId
                 + ("\r\nX-SuT-UID: " + (userId + ("\r\nX-SuT-Nonce: " + (nonce + ("\r\n" + apiKey)))))))))))
  {
    verb + (" " + (SignedPath(url) + DateLine(date, companyId, userId, nonce, apiKey)))
  }

  /** make_hash_authorization_signature */
  function Sign(sha1Hex: Digest, verb: string, url: string, date: string, companyId: string,
                userId: string, nonce: string, apiKey: string): (r: string)
    ensures r == sha1Hex(Encode(CanonicalString(verb, url, date, companyId, userId, nonce, apiKey)))
    // The hashed bytes pin the nonce: under any other nonce they differ.
    ensures forall n :: n != nonce ==>
              Encode(CanonicalString(verb, url, date, companyId, userId, n, apiKey))
              != Encode(CanonicalString(verb, url, date, companyId, userId, nonce, apiKey))
  {
    NonceChangesSignedBytes(verb, url, date, companyId, userId, nonce, apiKey);
    sha1Hex(Encode(CanonicalString(verb, url, date, companyId, userId, nonce, apiKey)))
  }

  lemma NonceChangesSignedBytes(verb: string, url: string, date: string, companyId: string,
                                userId: string, nonce: string, apiKey: string)
    ensures forall n :: n != nonce ==>
              Encode(CanonicalString(verb, url, date, companyId, userId, n, apiKey))
              != Encode(CanonicalString(verb, url, date, companyId, userId, nonce, apiKey))
  {
    forall n | n != nonce
      ensures Encode(CanonicalString(verb, url, date, companyId, userId, n, apiKey))
              != Encode(CanonicalString(verb, url, date, companyId, userId, nonce, apiKey))
    {
      FreshNonceChangesSignedBytes(verb, url, date, companyId, userId, apiKey, n, nonce);
    }
  }

  /** sep + (f + rest) == sep + (f' + rest') determines the field when the
      rests agree, and the rest when the fields agree. */
  lemma Layer(sep: string, f: string, rest: string, f': string, rest': string)
    requires sep + (f + rest) == sep + (f' + rest')
    ensures rest == rest' ==> f == f'
    ensures f == f' ==> rest == rest'
  {
    var s := sep + (f + rest);
    assert f + rest == s[|sep|..];
    assert f' + rest' == s[|sep|..];
    if rest == rest' {
      assert f == (f + rest)[..|f|];
      assert f' == (f' + rest')[..|f'|];
    }
    if f == f' {
      assert rest == (f + rest)[|f|..];
      assert rest' == (f' + rest')[|f'|..];
    }
  }

  /** Each line of the template determines its field once the rest of
      the text is known, and the rest once the field is known. */
  lemma NonceLineFields(nonce: string, apiKey: string, nonce': string, apiKey': string)
    requires NonceLine(nonce, apiKey) == NonceLine(nonce', apiKey')
    ensures nonce == nonce' <==> apiKey == apiKey'
  {
    var k, k' := "\r\n" + apiKey, "\r\n" + apiKey';
    Layer("\r\nX-SuT-Nonce: ", nonce, k, nonce', k');
    assert apiKey == k[2..] && apiKey' == k'[2..];
  }

  lemma UserLineFields(userId: string, nonce: string, apiKey: string,
                       userId': string, nonce': string, apiKey': string)
    requires UserLine(userId, nonce, apiKey) == UserLine(userId', nonce', apiKey')
    ensures userId == userId' <==> NonceLine(nonce, apiKey) == NonceLine(nonce', apiKey')
  {
    Layer("\r\nX-SuT-UID: ", userId, NonceLine(nonce, apiKey), userId', NonceLine(nonce', apiKey'));
  }

  lemma CompanyLineFields(companyId: string, userId: string, nonce: string, apiKey: string,
                          companyId': string, userId': string, nonce': string, apiKey': string)
    requires CompanyLine(companyId, userId, nonce, apiKey) == CompanyLine(companyId', userId', nonce', apiKey')
    ensures companyId == companyId' <==> UserLine(userId, nonce, apiKey) == UserLine(userId', nonce', apiKey')
  {
    Layer("\r\nX-SuT-CID: ", companyId, UserLine(userId, nonce, apiKey),
          companyId', UserLine(userId', nonce', apiKey'));
  }

  lemma DateLineFields(date: string, companyId: string, userId: string, nonce: string, apiKey: string,
                       date': string, companyId': string, userId': string, nonce': string, apiKey': string)
    requires DateLine(date, companyId, userId, nonce, apiKey) == DateLine(date', companyId', userId', nonce', apiKey')
    ensures date == date' <==> CompanyLine(companyId, userId, nonce, apiKey) == CompanyLine(companyId', userId', nonce', apiKey')
  {
    Layer("\r\nDate: ", date, CompanyLine(companyId, userId, nonce, apiKey),
          date', CompanyLine(companyId', userId', nonce', apiKey'));
  }

  /** Equal signed texts that agree on all fields but one agree on that one
      too: the template separates every field from the next. */
  lemma CanonicalFields(verb: string, url: string, date: string, companyId: string, userId: string,
                        nonce: string, apiKey: string,
                        verb': string, url': string, date': string, companyId': string, userId': string,
                        nonce': string, apiKey': string)
    requires CanonicalString(verb, url, date, companyId, userId, nonce, apiKey)
          == CanonicalString(verb', url', date', companyId', userId', nonce', apiKey')
    ensures SignedPath(url) == SignedPath(url') && date == date' && companyId == companyId'
            && userId == userId' && nonce == nonce' && apiKey == apiKey'
            ==> verb == verb'
    ensures verb == verb' && date == date' && companyId == companyId'
            && userId == userId' && nonce == nonce' && apiKey == apiKey'
            ==> SignedPath(url) == SignedPath(url')
    ensures verb == verb' && url == url' && companyId == companyId'
            && userId == userId' && nonce == nonce' && apiKey == apiKey'
            ==> date == date'
    ensures verb == verb' && url == url' && date == date'
            && userId == userId' && nonce == nonce' && apiKey == apiKey'
            ==> companyId == companyId'
    ensures verb == verb' && url == url' && date == date' && companyId == companyId'
            && nonce == nonce' && apiKey == apiKey'
            ==> userId == userId'
    ensures verb == verb' && url == url' && date == date' && companyId == companyId'
            && userId == userId' && apiKey == apiKey'
            ==> nonce == nonce'
    ensures verb == verb' && url == url' && date == date' && companyId == companyId'
            && userId == userId' && nonce == nonce'
            ==> apiKey == apiKey'
  {
    var p, p' := SignedPath(url), SignedPath(url');
    var d, d' := DateLine(date, companyId, userId, nonce, apiKey),
                 DateLine(date', companyId', userId', nonce', apiKey');
    var l1, l1' := " " + (p + d), " " + (p' + d');
    assert [] + (verb + l1) == [] + (verb' + l1');
    Layer([], verb, l1, verb', l1');
    if verb == verb' {
      Layer(" ", p, d, p', d');
      if p == p' {
        DateLineFields(date, companyId, userId, nonce, apiKey, date', companyId', userId', nonce', apiKey');
        if date == date' {
          CompanyLineFields(companyId, userId, nonce, apiKey, companyId', userId', nonce', apiKey');
          if companyId == companyId' {
            UserLineFields(userId, nonce, apiKey, userId', nonce', apiKey');
            if userId == userId' {
              NonceLineFields(nonce, apiKey, nonce', apiKey');
            }
          }
        }
      }
    }
  }

  /** Changing any single field changes the bytes that are hashed, so the
      signature covers every field (up to collisions of the hash itself). */
  lemma SignedBytesCoverEveryField(
    verb: string, url: string, date: string, companyId: string, userId: string,
    nonce: string, apiKey: string,
    verb': string, url': string, date': string, companyId': string, userId': string,
    nonce': string, apiKey': string)
    requires Encode(CanonicalString(verb, url, date, companyId, userId, nonce, apiKey))
          == Encode(CanonicalString(verb', url', date', companyId', userId', nonce', apiKey'))
    ensures CanonicalString(verb, url, date, companyId, userId, nonce, apiKey)
         == CanonicalString(verb', url', date', companyId', userId', nonce', apiKey')
  {
    var s := CanonicalString(verb, url, date, companyId, userId, nonce, apiKey);
    var s' := CanonicalString(verb', url', date', companyId', userId', nonce', apiKey');
    if s != s' {
      EncodeInjective(s, s');
    }
  }

  /** What a request to the client's own URLs signs: the path
      "/v<version>/<resource>" without its trailing slashes. */
  lemma ClientSignedPath(version: string, resource: string)
    requires IsPlainSegment(version) && IsPlainSegment(resource)
    ensures SignedPath("https://" + ApiHost + "/v" + version + "/" + resource)
         == if resource == [] then "/v" + version else "/v" + version + "/" + resource
  {
    ClientUrlPath(version, resource);
    var q := "/v" + version;
    var p := q + "/" + resource;
    assert SignedPath("https://" + ApiHost + "/v" + version + "/" + resource) == RStripSlashes(p);
    if resource == [] {
      assert p[..|p| - 1] == q;
      assert q[|q| - 1] != '/' by {
        if version != [] { assert q[|q| - 1] == version[|version| - 1] && version[|version| - 1] in version; }
      }
      assert RStripSlashes(p) == RStripSlashes(q);
      UnslashedEnd(q);
    } else {
      assert p[|p| - 1] == resource[|resource| - 1] && resource[|resource| - 1] in resource;
      UnslashedEnd(p);
    }
  }


  /** make_nonce's output: 40 characters from [a-z0-9]. */
  predicate IsNonce(s: string)
  {
    |s| == 40 && forall i :: 0 <= i < |s| ==> 'a' <= s[i] <= 'z' || '0' <= s[i] <= '9'
  }

  predicate IsDigit(c: char) { '0' <= c <= '9' }

  /** An IMF-fixdate of section 7.1.1.1 of RFC 7231, as
      wsgiref.handlers.format_date_time writes it:
      "Sun, 06 Nov 1994 08:49:37 GMT". */
  predicate IsHttpDate(s: string)
  {
    && |s| == 29
    && s[..3] in ["Mon", "Tue", "Wed", "Thu", "Fri", "Sat", "Sun"]
    && s[3..5] == ", "
    && IsDigit(s[5]) && IsDigit(s[6]) && s[7] == ' '
    && s[8..11] in ["Jan", "Feb", "Mar", "Apr", "May", "Jun",
                    "Jul", "Aug", "Sep", "Oct", "Nov", "Dec"]
    && s[11] == ' '
    && IsDigit(s[12]) && IsDigit(s[13]) && IsDigit(s[14]) && IsDigit(s[15])
    && s[16] == ' '
    && IsDigit(s[17]) && IsDigit(s[18]) && s[19] == ':'
    && IsDigit(s[20]) && IsDigit(s[21]) && s[22] == ':'
    && IsDigit(s[23]) && IsDigit(s[24])
    && s[25..] == " GMT"
  }

  /** The example date of section 7.1.1.1 of RFC 7231 is an IMF-fixdate. */
  lemma HttpDateExample()
    ensures IsHttpDate("Sun, 06 Nov 1994 08:49:37 GMT")
  {
    var s := "Sun, 06 Nov 1994 08:49:37 GMT";
    assert |s| == 29;
    assert s[..3] == "Sun";
    assert s[3..5] == [s[3], s[4]] == ", ";
    assert s[8..11] == "Nov";
    assert s[25..] == " GMT";
    assert s[5] == '0' && s[6] == '6' && s[7] == ' ' && s[11] == ' ';
    assert s[12] == '1' && s[13] == '9' && s[14] == '9' && s[15] == '4' && s[16] == ' ';
    assert s[17] == '0' && s[18] == '8' && s[19] == ':' && s[20] == '4';
    assert s[21] == '9' && s[22] == ':' && s[23] == '3' && s[24] == '7';
  }

  /** The obsolete RFC 850 form of the same date is not. */
  lemma Rfc850DateRejected()
    ensures !IsHttpDate("Sunday, 06-Nov-94 08:49:37 GMT")
  {
  }

  /** Different nonces give different signed texts, so two requests signed
      in the same second differ as long as their nonces do. */
  lemma FreshNonceChangesSignedBytes(verb: string, url: string, date: string, companyId: string,
                                     userId: string, apiKey: string, n1: string, n2: string)
    requires n1 != n2
    ensures Encode(CanonicalString(verb, url, date, companyId, userId, n1, apiKey))
         != Encode(CanonicalString(verb, url, date, companyId, userId, n2, apiKey))
  {
    if Encode(CanonicalString(verb, url, date, companyId, userId, n1, apiKey))
       == Encode(CanonicalString(verb, url, date, companyId, userId, n2, apiKey)) {
      SignedBytesCoverEveryField(verb, url, date, companyId, userId, n1, apiKey,
                                 verb, url, date, companyId, userId, n2, apiKey);
      CanonicalFields(verb, url, date, companyId, userId, n1, apiKey,
                      verb, url, date, companyId, userId, n2, apiKey);
    }
  }
}
