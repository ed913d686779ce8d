/** Which references survive being read and written again, as every link step does
    (`ref_id` then `set_ref` of cats/network/cas/content_ref.py). */
module CarriedRefs {
  import opened ContentRef
  import opened Digest
  import opened Hashlink
  import opened Json
  import opened Lineage
  import opened Order
  import opened Text
  import opened Wrappers
  import Index = Locators

  /** The locator index answers with canonical ids. */
  ghost predicate SoundLocators(loc: Locators) {
    forall uri :: loc(uri).Some? ==> Stable(loc(uri).value)
  }

  /** An index filled by puts is sound. */
  lemma IndexIsSound(history: seq<Index.Registration>, order: seq<string>, uri: string)
    requires forall k :: k in order <==> k in Index.Replay(history)
    ensures Index.Find(Index.Replay(history), order, uri).Ok?
    ensures Index.Find(Index.Replay(history), order, uri).value.Some? ==>
      Stable(Index.Find(Index.Replay(history), order, uri).value.value)
  {
    var docs := Index.Replay(history);
    Index.IndexIsHistory(history);
    Index.ScanFinds(docs, order, Strip(uri));
    var found := Index.Find(docs, order, uri).value;
    if found.Some? {
      var k :| k in order && Index.Lists(docs[k].locators, Strip(uri)) && found.value == docs[k].contentId;
      NormalFormStable(found.value);
    }
  }

  lemma NormalFormStable(id: string)
    requires NormalizeContentId(id) == Ok(id)
    ensures Stable(id)
  {
    NormalFormTrimmed(id);
    KeyForm(id);
    if IsNiOrDigest(id) {
      StripTwice(id);
    } else {
      FsKeyAgreesWithNormalForm(id, id);
      AlnumStable(id);
    }
  }

  lemma AlnumStable(id: string)
    requires id != [] && Strip(id) == id && !IsNiOrDigest(id)
    requires forall i :: 0 <= i < |id| ==> IsPathKeyChar(id[i])
    ensures Stable(id)
  {
    if |id| > 2 {
      assert IsPathKeyChar(id[2]) && LowerChar(id[2]) != ':';
      assert |id| > 4 ==> IsPathKeyChar(id[4]) && LowerChar(id[4]) != ':';
      assert |id| > 5 ==> IsPathKeyChar(id[5]) && LowerChar(id[5]) != ':';
      assert Lower(id)[2] == LowerChar(id[2]);
      assert |id| > 4 ==> Lower(id)[4] == LowerChar(id[4]);
      assert |id| > 5 ==> Lower(id)[5] == LowerChar(id[5]);
    }
  }

  /** The id a URL gives is never a URL again. */
  lemma UriIdStable(uri: string, loc: Locators)
    requires SoundLocators(loc) && ContentIdFromUri(uri, loc).Ok? && ContentIdFromUri(uri, loc).value.Some?
    ensures Stable(ContentIdFromUri(uri, loc).value.value)
  {
    match LdpKey(UrlPath(uri))
    case Some(key) =>
      LdpKeyStable(UrlPath(uri));
    case None =>
      assert Stable(loc(Strip(uri)).value);
  }

  lemma LdpKeyStable(path: string)
    requires LdpKey(path).Some?
    ensures var key := LdpKey(path).value; Stable(match ToNi(key) case Ok(ni) => ni case Err(_) => key)
  {
    var key := LdpKey(path).value;
    assert IsPathKey(key);
    KeyIdStable(key);
  }

  lemma KeyIdStable(key: string)
    requires IsPathKey(key)
    ensures Stable(match ToNi(key) case Ok(ni) => ni case Err(_) => key)
  {
    PathKeyTrimmed(key);
    match ToNi(key)
    case Ok(ni) =>
      var hex := ValidateDigestSegment(key).value;
      HexIsTrimmed(hex);
      LowerOfHex(hex);
      ToNiTrimmed(hex);
      EqualityIdOfNi(hex);
      NiRoundTrip(hex);
    case Err(_) =>
      NoNiInKey(key);
      AlnumStable(key);
  }

  lemma NoNiInKey(key: string)
    requires IsPathKey(key) && Strip(key) == key && ToNi(key).Err?
    ensures !IsNiOrDigest(key)
  {
    assert NI_PREFIX[2] == ':';
    assert |key| > 2 ==> IsPathKeyChar(key[2]);
  }

  /** An id off a trimmed text that is not a URL. */
  lemma CanonicalStable(value: string)
    requires value != [] && Strip(value) == value && Canonical(value).Ok?
    ensures !IsHl(value) && !IsHttpUri(value) ==> Stable(Canonical(value).value)
    ensures IsNiOrDigest(value) ==> Stable(Canonical(value).value)
    ensures !IsNiOrDigest(value) ==> Canonical(value).value == value
  {
    if IsNiOrDigest(value) {
      EqualityIdIdempotent(value);
      StripTwice(value);
      NiRoundTrip(FromNi(value).value);
    }
  }

  ghost predicate OrdinaryStem(stem: string) {
    stem != "" && stem != "content"
  }

  lemma HlIdStable(value: string, loc: Locators)
    requires IsHl(value) && ResolveIntakeRef(value, loc).Ok? && ResolveIntakeRef(value, loc).value.Some?
    ensures Stable(ResolveIntakeRef(value, loc).value.value)
  {
    StripTwice(value);
    FromHlStable(Strip(value));
  }

  lemma FromHlStable(hl: string)
    requires FromHl(hl).Ok?
    ensures Stable(FromHl(hl).value.0)
  {
    var b64 := HlGroups(Strip(hl)).value.0;
    var raw := Codec.B64Decode(b64).value;
    var hex := Codec.BytesToHex(raw);
    HexIsTrimmed(hex);
    LowerOfHex(hex);
    ToNiTrimmed(hex);
    EqualityIdOfNi(hex);
    NiRoundTrip(hex);
  }

  /** Which ids survive: all that can be read, except a URL or `hl:` text left in a legacy field. */
  lemma ReadStable(d: Dict, stem: string, loc: Locators, id: string)
    requires SoundLocators(loc) && OrdinaryStem(stem) && RefId(d, stem, loc) == Ok(Some(id)) && id != []
    ensures Stable(id) <==> !IsHl(id) && !IsHttpUri(id)
    ensures !Stable(id) ==> StrippedString(Get(d, CidField(stem))) == Some(id)
  {
    if IsNiOrDigest(id) && EqualityId(id) == Ok(id) {
      StableDigest(id);
      FromNiNamed(id);
      DigestIsNoUrl(id);
    }
    ReadCases(Get(d, UriField(stem)), Get(d, CidField(stem)), Get(d, "content_id"), stem, loc, id);
  }

  lemma StrippedIsTrimmed(j: Option<Json>)
    ensures StrippedString(j).Some? ==>
      StrippedString(j).value != [] && Strip(StrippedString(j).value) == StrippedString(j).value
  {
    if j.Some? && j.value.Str? {
      StripTwice(j.value.s);
    }
  }

  lemma ReadCases(uri: Option<Json>, cid: Option<Json>, bare: Option<Json>, stem: string, loc: Locators, id: string)
    requires SoundLocators(loc) && OrdinaryStem(stem) && IdOfFields(uri, cid, bare, stem, loc) == Ok(Some(id))
      && id != []
    ensures Stable(id) || (StrippedString(cid) == Some(id) && (IsHl(id) || IsHttpUri(id)))
  {
    StrippedIsTrimmed(uri);
    match StrippedString(uri)
    case None =>
      LegacyCases(cid, bare, stem, id);
    case Some(text) =>
      if IsHl(text) {
        HlIdStable(text, loc);
      } else if IsHttpUri(text) {
        UrlCases(text, cid, bare, stem, loc, id);
      } else {
        CanonicalStable(text);
      }
  }

  lemma UrlCases(text: string, cid: Option<Json>, bare: Option<Json>, stem: string, loc: Locators, id: string)
    requires SoundLocators(loc) && OrdinaryStem(stem) && !IsHl(text) && IsHttpUri(text)
    requires IdOfText(Some(text), cid, bare, stem, loc) == Ok(Some(id))
    ensures Stable(id) || (StrippedString(cid) == Some(id) && (IsHl(id) || IsHttpUri(id)))
  {
    var found := ContentIdFromUri(text, loc).value;
    if found.Some? && found.value != [] {
      UriIdStable(text, loc);
    } else {
      LegacyCases(cid, bare, stem, id);
    }
  }

  lemma LegacyCases(cid: Option<Json>, bare: Option<Json>, stem: string, id: string)
    requires OrdinaryStem(stem) && LegacyId(cid, bare, stem) == Ok(Some(id))
    ensures Stable(id) || (StrippedString(cid) == Some(id) && (IsHl(id) || IsHttpUri(id)))
  {
    StrippedIsTrimmed(cid);
    CanonicalStable(StrippedString(cid).value);
  }

  /** Writing an id and reading it back gives that id if and only if the id is stable. */
  lemma ReadsBackIff(n: Node, d: Dict, stem: string, id: string, loc: Locators)
    requires Ready(n) && OrdinaryStem(stem) && SoundLocators(loc)
    ensures With(n, d, stem, id).Ok? && RefId(With(n, d, stem, id).value, stem, loc) == Ok(Some(id)) <==> Stable(id)
  {
    if Stable(id) {
      WithReads(n, d, stem, id, loc);
    } else if With(n, d, stem, id).Ok? {
      var d' := With(n, d, stem, id).value;
      WrittenHasNoLegacy(n, d, stem, id);
      if RefId(d', stem, loc) == Ok(Some(id)) {
        WrittenTarget(n, d, stem, id, loc);
      }
    }
  }

  lemma WrittenHasNoLegacy(n: Node, d: Dict, stem: string, id: string)
    requires With(n, d, stem, id).Ok?
    ensures Get(With(n, d, stem, id).value, CidField(stem)).None?
  {
    var text := RefText(RefTarget(id).value, n.base, None).value;
    WrittenField(d, stem, Str(text));
  }

  /** What is read after a write is stable, or nothing. */
  lemma WrittenTarget(n: Node, d: Dict, stem: string, id: string, loc: Locators)
    requires Ready(n) && OrdinaryStem(stem) && SoundLocators(loc) && With(n, d, stem, id).Ok?
    requires Get(With(n, d, stem, id).value, CidField(stem)).None?
    requires RefId(With(n, d, stem, id).value, stem, loc) == Ok(Some(id))
    ensures Stable(id)
  {
    var d' := With(n, d, stem, id).value;
    if id != [] {
      ReadStable(d', stem, loc, id);
    } else {
      var text := RefText(RefTarget(id).value, n.base, None).value;
      WrittenField(d, stem, Str(text));
    }
  }
}
