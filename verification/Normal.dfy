/** Normalizing twice: transactions always settle, proofs settle unless a cut leaves a trailing space. */
module Normal {
  import opened Records
  import opened Ledger
  import Text

  lemma TrimAgain(s: string)
    ensures Text.Trim(Text.Trim(s)) == Text.Trim(s)
  {
    Text.TrimIsIdentity(Text.Trim(s));
  }

  /** A normalized transaction is its own normal form. */
  lemma TransactionSettles(env: Env, tx: Transaction)
    ensures var t := NormalizeTransaction(env, tx); NormalizeTransaction(env, t) == t
  {
    hide Text.Trim;
    TrimAgain(tx.from);
    TrimAgain(tx.to);
  }

  // ---------------------------------------------------------------- cutting text

  lemma {:induction false} CutIsPrefix(s: string, limit: nat)
    ensures CutUtf8(s, limit) <= s && Utf8Bytes(CutUtf8(s, limit)) <= limit
  {
    if s != [] && Utf8Size(s[0]) <= limit {
      CutIsPrefix(s[1..], limit - Utf8Size(s[0]));
      assert s == [s[0]] + s[1..];
    }
  }

  lemma {:induction false} TrimRightIsShorter(s: string)
    ensures s != [] && Text.IsSpace(s[|s| - 1]) ==> |Text.TrimRight(s)| < |s|
  {
  }

  /** What a normalized text field holds. */
  function Cut(text: string, limit: nat): string {
    TruncateUtf8(Text.Trim(text), limit)
  }

  /** The field does not end in white space. */
  predicate EndsClean(s: string) {
    s != [] ==> !Text.IsSpace(s[|s| - 1])
  }

  lemma CutShape(text: string, limit: nat)
    requires limit > 0
    ensures var cut := Cut(text, limit);
      Utf8Bytes(cut) <= limit && (cut != [] ==> !Text.IsSpace(cut[0]))
  {
    var trimmed := Text.Trim(text);
    CutIsPrefix(trimmed, limit);
    hide CutUtf8, Utf8Bytes, Text.Trim, Text.IsSpace;
    assert Cut(text, limit) <= trimmed;
  }

  lemma CleanStays(cut: string, limit: nat)
    requires Utf8Bytes(cut) <= limit && EndsClean(cut) && (cut != [] ==> !Text.IsSpace(cut[0]))
    ensures Cut(cut, limit) == cut
  {
    hide CutUtf8, Utf8Bytes, Text.Trim, Text.IsSpace;
    Text.TrimIsIdentity(cut);
  }

  lemma SpaceGoes(cut: string, limit: nat)
    requires Utf8Bytes(cut) <= limit && !EndsClean(cut) && (cut != [] ==> !Text.IsSpace(cut[0]))
    ensures |Cut(cut, limit)| < |cut|
  {
    TrimRightIsShorter(cut);
    assert Text.TrimLeft(cut) == cut;
    assert |Text.Trim(cut)| < |cut|;
    CutIsPrefix(Text.Trim(cut), limit);
    hide CutUtf8, Utf8Bytes, Text.Trim, Text.TrimLeft, Text.TrimRight, Text.IsSpace;
  }

  /** Normalizing a field twice changes it if and only if its cut ends in white space. */
  lemma CutSettles(text: string, limit: nat)
    requires limit > 0
    ensures Cut(Cut(text, limit), limit) == Cut(text, limit) <==> EndsClean(Cut(text, limit))
  {
    hide *;
    var cut := Cut(text, limit);
    CutShape(text, limit);
    if EndsClean(cut) {
      CleanStays(cut, limit);
    } else {
      SpaceGoes(cut, limit);
    }
  }

  // ---------------------------------------------------------------- links

  ghost predicate CleanLinks(links: seq<string>, limit: nat, seen: set<string>) {
    && |links| <= limit
    && (forall i :: 0 <= i < |links| ==> links[i] != "" && Text.Trim(links[i]) == links[i] && links[i] !in seen)
    && forall i, j :: 0 <= i < j < |links| ==> links[i] != links[j]
  }

  lemma {:induction false} TruncateCleans(links: seq<string>, limit: nat, seen: set<string>)
    ensures CleanLinks(TruncateLinks(links, limit, seen), limit, seen)
    decreases |links|
  {
    hide Text.Trim;
    if links != [] && limit > 0 {
      var cleaned := Text.Trim(links[0]);
      if cleaned == "" || cleaned in seen {
        TruncateCleans(links[1..], limit, seen);
      } else {
        TrimAgain(links[0]);
        TruncateCleans(links[1..], limit - 1, seen + {cleaned});
      }
    }
  }

  lemma {:induction false} CleanLinksStay(links: seq<string>, limit: nat, seen: set<string>)
    requires CleanLinks(links, limit, seen)
    ensures TruncateLinks(links, limit, seen) == links
    decreases |links|
  {
    hide Text.Trim;
    if links != [] {
      CleanLinksStay(links[1..], limit - 1, seen + {links[0]});
      assert links == [links[0]] + links[1..];
    }
  }

  /** Each kept link is one of the page's, trimmed; below the limit every link that is not blank is kept. */
  lemma {:induction false} TruncateKeeps(links: seq<string>, limit: nat, seen: set<string>)
    ensures var r := TruncateLinks(links, limit, seen);
      && (forall x :: x in r ==> exists i :: 0 <= i < |links| && Text.Trim(links[i]) == x)
      && (|r| < limit ==> forall i :: 0 <= i < |links| && Text.Trim(links[i]) != "" ==>
            Text.Trim(links[i]) in r || Text.Trim(links[i]) in seen)
    decreases |links|
  {
    hide Text.Trim;
    if links != [] && limit > 0 {
      var cleaned, rest, r := Text.Trim(links[0]), links[1..], TruncateLinks(links, limit, seen);
      var isNew := cleaned != "" && cleaned !in seen;
      var limit', seen' := if isNew then limit - 1 else limit, if isNew then seen + {cleaned} else seen;
      TruncateKeeps(rest, limit', seen');
      forall x | x in TruncateLinks(rest, limit', seen')
        ensures exists i :: 0 <= i < |links| && Text.Trim(links[i]) == x
      {
        var i :| 0 <= i < |rest| && Text.Trim(rest[i]) == x;
        assert links[i + 1] == rest[i];
      }
      assert Text.Trim(links[0]) == cleaned;
      assert forall i :: 0 < i < |links| ==> links[i] == rest[i - 1];
    }
  }

  // ---------------------------------------------------------------- sizes

  /** The UTF-8 bytes of a character. */
  function Utf8(c: char): seq<Byte> {
    var n := c as int;
    if n < 0x80 then [n]
    else if n < 0x800 then [0xC0 + n / 0x40, 0x80 + n % 0x40]
    else if n < 0x1_0000 then [0xE0 + n / 0x1000, 0x80 + n / 0x40 % 0x40, 0x80 + n % 0x40]
    else [0xF0 + n / 0x4_0000, 0x80 + n / 0x1000 % 0x40, 0x80 + n / 0x40 % 0x40, 0x80 + n % 0x40]
  }

  function Utf8Text(s: string): seq<Byte> {
    if s == [] then [] else Utf8(s[0]) + Utf8Text(s[1..])
  }

  /** Sizes are those of the encoded text. */
  lemma {:induction false} SizesAreEncoded(s: string)
    ensures Utf8Bytes(s) == |Utf8Text(s)|
  {
    if s != [] {
      SizesAreEncoded(s[1..]);
    }
  }

  // ---------------------------------------------------------------- what is stored of a page

  /** All of the text, or as many whole characters from its start as fit. */
  ghost predicate KeptText(text: string, kept: string, limit: nat) {
    && kept <= text && Utf8Bytes(kept) <= limit
    && (kept == text || Utf8Bytes(kept) + Utf8Size(text[|kept|]) > limit)
  }

  lemma {:induction false} CutKeeps(s: string, limit: nat)
    ensures CutUtf8(s, limit) <= s && Utf8Bytes(CutUtf8(s, limit)) <= limit
    ensures CutUtf8(s, limit) != s ==> Utf8Bytes(CutUtf8(s, limit)) + Utf8Size(s[|CutUtf8(s, limit)|]) > limit
  {
    hide Utf8Size;
    if s != [] && Utf8Size(s[0]) <= limit {
      CutKeeps(s[1..], limit - Utf8Size(s[0]));
      assert s == [s[0]] + s[1..];
    }
  }

  lemma TruncateKeepsText(s: string, limit: nat)
    requires limit > 0
    ensures KeptText(s, TruncateUtf8(s, limit), limit)
  {
    CutKeeps(s, limit);
    hide CutUtf8, Utf8Bytes, Utf8Size;
  }

  /** The links kept: trimmed, not blank, each once, at most 64, and all of them if there are fewer. */
  ghost predicate KeptLinks(links: seq<string>, kept: seq<string>) {
    && |kept| <= 64
    && (forall i, j :: 0 <= i < j < |kept| ==> kept[i] != kept[j])
    && (forall x :: x in kept ==> x != "" && exists i :: 0 <= i < |links| && Text.Trim(links[i]) == x)
    && (|kept| < 64 ==> forall i :: 0 <= i < |links| && Text.Trim(links[i]) != "" ==> Text.Trim(links[i]) in kept)
  }

  /** The stored form of a page. */
  ghost predicate StoredPage(page: Page, p: Page) {
    && p.url == Text.Trim(page.url)
    && KeptText(Text.Trim(page.title), p.title, 1024)
    && KeptText(Text.Trim(page.snippet), p.snippet, 512)
    && KeptText(Text.Trim(page.body), p.body, 8192)
    && p.bodyBytes == (if page.bodyBytes == 0 then Utf8Bytes(page.body) else page.bodyBytes)
    && p.contentHash == Text.Trim(page.contentHash)
    && p.simHash == page.simHash
    && KeptLinks(page.outboundLinks, p.outboundLinks)
  }

  lemma PageIsStored(page: Page)
    ensures StoredPage(page, NormalizePage(page))
  {
    TruncateKeepsText(Text.Trim(page.title), 1024);
    TruncateKeepsText(Text.Trim(page.snippet), 512);
    TruncateKeepsText(Text.Trim(page.body), 8192);
    LinksAreKept(page.outboundLinks);
    hide TruncateUtf8, TruncateLinks, Text.Trim, KeptText, KeptLinks, Utf8Bytes;
  }

  lemma LinksAreKept(links: seq<string>)
    ensures KeptLinks(links, TruncateLinks(links, 64, {}))
  {
    TruncateCleans(links, 64, {});
    TruncateKeeps(links, 64, {});
    hide TruncateLinks, Text.Trim;
  }

  // ---------------------------------------------------------------- proofs

  /** No cut of the page's texts leaves a trailing space. */
  predicate CutsClean(page: Page) {
    && EndsClean(Cut(page.title, MAX_TITLE_BYTES))
    && EndsClean(Cut(page.snippet, MAX_SNIPPET_BYTES))
    && EndsClean(Cut(page.body, MAX_BODY_BYTES))
  }

  lemma PageSettles(page: Page)
    ensures NormalizePage(NormalizePage(page)) == NormalizePage(page) <==> CutsClean(page)
  {
    hide Text.Trim, TruncateUtf8, TruncateLinks, EndsClean, Utf8Bytes;
    TrimAgain(page.url);
    TrimAgain(page.contentHash);
    CutSettles(page.title, MAX_TITLE_BYTES);
    CutSettles(page.snippet, MAX_SNIPPET_BYTES);
    CutSettles(page.body, MAX_BODY_BYTES);
    TruncateCleans(page.outboundLinks, MAX_OUTBOUND_LINKS, {});
    CleanLinksStay(TruncateLinks(page.outboundLinks, MAX_OUTBOUND_LINKS, {}), MAX_OUTBOUND_LINKS, {});
    if page.bodyBytes == 0 && Utf8Bytes(page.body) == 0 {
      NoBytes(page.body);
    }
  }

  lemma NoBytes(s: string)
    requires Utf8Bytes(s) == 0
    ensures s == [] && Utf8Bytes(TruncateUtf8(Text.Trim(s), MAX_BODY_BYTES)) == 0
  {
  }

  /** A normalized proof is its own normal form if and only if no cut left a trailing space. */
  lemma ProofSettles(env: Env, raw: CrawlProof)
    requires NormalizeProof(env, raw).Ok?
    ensures var q := NormalizeProof(env, raw).value;
      NormalizeProof(env, q) == Ok(q) <==> CutsClean(raw.page)
  {
    hide Text.Trim, NormalizePage, CutsClean;
    var q := NormalizeProof(env, raw).value;
    TrimAgain(raw.taskId);
    TrimAgain(raw.taskTxHash);
    TrimAgain(raw.url);
    TrimAgain(raw.query);
    TrimAgain(raw.miner);
    PageSettles(raw.page);
    HashedFields(raw.page);
  }

  /** Normalizing a page again does not touch what the proof hash covers. */
  lemma HashedFields(page: Page)
    ensures var p := NormalizePage(page);
      NormalizePage(p).contentHash == p.contentHash && NormalizePage(p).simHash == p.simHash
  {
    hide Text.Trim, TruncateUtf8, TruncateLinks, Utf8Bytes;
    TrimAgain(page.contentHash);
  }

  // ---------------------------------------------------------------- a cut that leaves a space

  function Letters(n: nat): string {
    seq(n, _ => 'a')
  }

  lemma OneLetter(rest: string, limit: nat)
    requires limit > 0
    ensures CutUtf8("a" + rest, limit) == "a" + CutUtf8(rest, limit - 1)
    ensures Utf8Bytes("a" + rest) == 1 + Utf8Bytes(rest)
  {
    assert ("a" + rest)[1..] == rest && ("a" + rest)[0] == 'a';
  }

  lemma LettersSplit(n: nat, rest: string)
    requires n > 0
    ensures Letters(n) + rest == "a" + (Letters(n - 1) + rest)
  {
  }

  lemma {:induction false} LettersThen(n: nat, rest: string, limit: nat)
    requires n <= limit
    ensures CutUtf8(Letters(n) + rest, limit) == Letters(n) + CutUtf8(rest, limit - n)
    ensures Utf8Bytes(Letters(n) + rest) == n + Utf8Bytes(rest)
  {
    hide CutUtf8, Utf8Bytes;
    if n == 0 {
      assert Letters(n) + rest == rest && Letters(n) + CutUtf8(rest, limit) == CutUtf8(rest, limit);
    } else {
      LettersSplit(n, rest);
      LettersSplit(n, CutUtf8(rest, limit - n));
      hide Letters;
      LettersThen(n - 1, rest, limit - 1);
      OneLetter(Letters(n - 1) + rest, limit);
    }
  }

  lemma SpaceCut()
    ensures CutUtf8(" b", 1) == " " && Utf8Bytes(" b") == 2
  {
    assert " b"[1..] == "b" && "b"[1..] == "";
    assert CutUtf8("b", 0) == "" && Utf8Bytes("b") == 1;
  }

  lemma TitleEnds(n: nat)
    requires n > 0
    ensures var title := Letters(n) + " b";
      && title != [] && !Text.IsSpace(title[0]) && !Text.IsSpace(title[|title| - 1])
      && !EndsClean(Letters(n) + " ")
  {
    var title, cut := Letters(n) + " b", Letters(n) + " ";
    assert title[0] == 'a' && title[|title| - 1] == 'b' && cut[|cut| - 1] == ' ';
  }

  lemma LongTextIsCut(text: string, limit: nat)
    requires limit > 0 && Utf8Bytes(text) > limit && Text.Trim(text) == text
    ensures Cut(text, limit) == CutUtf8(text, limit)
  {
    hide Utf8Bytes, CutUtf8, Text.Trim;
  }

  /** Letters, a space and a letter, cut behind the space, keep the space. */
  lemma CutBehindSpace(n: nat)
    requires n > 0
    ensures Cut(Letters(n) + " b", n + 1) == Letters(n) + " " && !EndsClean(Letters(n) + " ")
  {
    hide *;
    TitleEnds(n);
    Text.TrimIsIdentity(Letters(n) + " b");
    LettersThen(n, " b", n + 1);
    SpaceCut();
    LongTextIsCut(Letters(n) + " b", n + 1);
  }

  /** A title of 1023 letters, a space and a letter keeps the space when it is cut to 1024 bytes. */
  lemma CutLeavesSpace(page: Page)
    requires page.title == Letters(MAX_TITLE_BYTES - 1) + " b"
    ensures !CutsClean(page) && NormalizePage(NormalizePage(page)) != NormalizePage(page)
  {
    hide Cut, Letters, EndsClean, NormalizePage;
    CutBehindSpace(MAX_TITLE_BYTES - 1);
    PageSettles(page);
  }
}
