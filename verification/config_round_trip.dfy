/** Proof that the settings file `Save` writes is read back by `Load` as
    the settings that were saved. */
module ConfigRoundTrip {
  import opened Options
  import opened TextSearch
  import opened Config

  /** The colon right after the key found at `p` is the first one from
      there on. */
  lemma ColonAfterKey(content: string, p: nat, k: string)
    requires MatchAt(content, KeyPattern(k), p)
    requires ':' !in k && p + |k| + 2 < |content| && content[p + |k| + 2] == ':'
    ensures FindChar(content, ':', p) == Some(p + |k| + 2)
  {
    assert content[p..p + |k| + 2] == KeyPattern(k);
    forall j | p <= j < p + |k| + 2 ensures content[j] != ':' {
      assert content[j] == KeyPattern(k)[j - p];
    }
    FindCharIs(content, ':', p, p + |k| + 2);
  }

  /** After a stretch without `ch`, the next `ch` is found right behind it. */
  lemma NextCharAfter(content: string, from: nat, gap: string, ch: char)
    requires from + |gap| < |content| && content[from..from + |gap|] == gap
    requires ch !in gap && content[from + |gap|] == ch
    ensures FindChar(content, ch, from) == Some(from + |gap|)
  {
    forall j | from <= j < from + |gap| ensures content[j] != ch {
      assert content[j] == gap[j - from];
    }
    FindCharIs(content, ch, from, from + |gap|);
  }

  /** After a stretch without terminators, the next terminator is found
      right behind it. */
  lemma NextTerminatorAfter(content: string, from: nat, gap: string, term: char)
    requires from + |gap| < |content| && content[from..from + |gap|] == gap
    requires forall i :: 0 <= i < |gap| ==> gap[i] !in Terminators
    requires term in Terminators && content[from + |gap|] == term
    ensures FirstOf(content, Terminators, from) == Some(from + |gap|)
  {
    forall j | from <= j < from + |gap| ensures content[j] !in Terminators {
      assert content[j] == gap[j - from];
    }
    FirstOfIs(content, Terminators, from, from + |gap|);
  }

  /** The string field read from the positions of its key, colon and the
      two quotes around its value. */
  lemma RawStringFrom(content: string, k: string, p: nat, c: nat, o: nat, e: nat)
    requires IndexOf(content, KeyPattern(k), 0) == Some(p)
    requires FindChar(content, ':', p) == Some(c)
    requires FindChar(content, Quote, c + 1) == Some(o)
    requires FindChar(content, Quote, o + 1) == Some(e)
    ensures RawString(content, k) == Some(content[o + 1..e])
  {
    assert ValueSearchStart(content, p) == c + 1;
    QuotedValueAt(content, c + 1, o, e);
  }

  lemma QuotedValueAt(content: string, from: nat, o: nat, e: nat)
    requires FindChar(content, Quote, from) == Some(o)
    requires FindChar(content, Quote, o + 1) == Some(e)
    ensures QuotedValueFrom(content, from) == Some(content[o + 1..e])
  {
  }

  /** The number or boolean field read from the positions of its key,
      colon and terminator. */
  lemma RawTokenFrom(content: string, k: string, p: nat, c: nat, e: nat)
    requires IndexOf(content, KeyPattern(k), 0) == Some(p)
    requires FindChar(content, ':', p) == Some(c)
    requires FirstOf(content, Terminators, c + 1) == Some(e)
    ensures RawToken(content, k) == Some(content[c + 1..e])
  {
  }

  /** Where the searches stop inside a string field laid out behind its
      key: the colon at `c`, the quotes at `o` and `e`. */
  lemma StringPositions(content: string, p: nat, k: string, v1: string, v2: string, c: nat, o: nat, e: nat)
    requires MatchAt(content, KeyPattern(k), p)
    requires ':' !in k && Quote !in v1 && Quote !in v2 && |v1| > 0 && v1[0] == ':'
    requires c == p + |k| + 2 && o == c + |v1| && e == o + 1 + |v2| && e < |content|
    requires content[c..o] == v1 && content[o] == Quote
    requires content[o + 1..e] == v2 && content[e] == Quote
    ensures FindChar(content, ':', p) == Some(c)
    ensures FindChar(content, Quote, c + 1) == Some(o)
    ensures FindChar(content, Quote, o + 1) == Some(e)
  {
    assert content[c] == v1[0];
    ColonAfterKey(content, p, k);
    assert content[c + 1..o] == v1[1..];
    NextCharAfter(content, c + 1, v1[1..], Quote);
    NextCharAfter(content, o + 1, v2, Quote);
  }

  /** A string field: behind the key found at `p` come `v1`, which starts
      with the colon, and then `v2` between quotes; it reads as `v2`. */
  lemma ReadValueAt(content: string, p: nat, k: string, v1: string, v2: string, c: nat, o: nat, e: nat)
    requires IndexOf(content, KeyPattern(k), 0) == Some(p)
    requires ':' !in k && Quote !in v1 && Quote !in v2 && |v1| > 0 && v1[0] == ':'
    requires c == p + |k| + 2 && o == c + |v1| && e == o + 1 + |v2| && e < |content|
    requires content[c..o] == v1 && content[o] == Quote
    requires content[o + 1..e] == v2 && content[e] == Quote
    ensures RawString(content, k) == Some(v2)
  {
    StringPositions(content, p, k, v1, v2, c, o, e);
    RawStringFrom(content, k, p, c, o, e);
  }

  /** Where the searches stop inside a number or boolean field: the colon
      at `c` and the terminator at `e`. */
  lemma TokenPositions(content: string, p: nat, k: string, token: string, term: char, c: nat, e: nat)
    requires MatchAt(content, KeyPattern(k), p)
    requires ':' !in k && term in Terminators
    requires forall i :: 0 <= i < |token| ==> token[i] !in Terminators
    requires c == p + |k| + 2 && e == c + 1 + |token| && e < |content|
    requires content[c] == ':' && content[c + 1..e] == token && content[e] == term
    ensures FindChar(content, ':', p) == Some(c)
    ensures FirstOf(content, Terminators, c + 1) == Some(e)
  {
    ColonAfterKey(content, p, k);
    NextTerminatorAfter(content, c + 1, token, term);
  }

  /** A number or boolean field: behind the key found at `p` come the
      colon, `token` and a terminator; it reads as `token`. */
  lemma ReadTokenAt(content: string, p: nat, k: string, token: string, term: char, c: nat, e: nat)
    requires IndexOf(content, KeyPattern(k), 0) == Some(p)
    requires ':' !in k && term in Terminators
    requires forall i :: 0 <= i < |token| ==> token[i] !in Terminators
    requires c == p + |k| + 2 && e == c + 1 + |token| && e < |content|
    requires content[c] == ':' && content[c + 1..e] == token && content[e] == term
    ensures RawToken(content, k) == Some(token)
  {
    TokenPositions(content, p, k, token, term, c, e);
    RawTokenFrom(content, k, p, c, e);
  }

  /** Where the pieces of a string field sit behind its key. */
  lemma StringLayout(content: string, p: nat, k: string, v1: string, v2: string, tail: string, c: nat, o: nat, e: nat)
    requires p <= |content| && content[p..] == [Quote] + k + ([Quote] + v1 + ([Quote] + v2 + tail))
    requires |tail| > 0 && tail[0] == Quote
    requires c == p + |k| + 2 && o == c + |v1| && e == o + 1 + |v2|
    ensures e < |content|
    ensures content[c..o] == v1 && content[o] == Quote
    ensures content[o + 1..e] == v2 && content[e] == Quote
  {
    var t := content[p..];
    var a := [Quote] + k + [Quote];
    assert t == a + v1 + [Quote] + v2 + tail;
    assert content[c..o] == t[|a|..|a| + |v1|] == v1;
    assert content[o] == t[|a| + |v1|];
    assert content[o + 1..e] == t[|a| + |v1| + 1..|a| + |v1| + 1 + |v2|] == v2;
    assert content[e] == t[|a| + |v1| + 1 + |v2|] == tail[0];
  }

  /** Where the pieces of a number or boolean field sit behind its key. */
  lemma TokenLayout(content: string, p: nat, k: string, token: string, term: char, tail: string, rest: string, c: nat, e: nat)
    requires p <= |content| && content[p..] == [Quote] + k + ([Quote] + (":" + token + [term] + tail) + rest)
    requires c == p + |k| + 2 && e == c + 1 + |token|
    ensures e < |content|
    ensures content[c] == ':' && content[c + 1..e] == token && content[e] == term
  {
    var t := content[p..];
    var a := [Quote] + k + [Quote];
    assert t == a + ":" + token + [term] + tail + rest;
    assert content[c] == t[|a|];
    assert content[c + 1..e] == t[|a| + 1..|a| + 1 + |token|] == token;
    assert content[e] == t[|a| + 1 + |token|];
  }

  /** The document shape `Save` produces: a quote-free opening followed by
      quote-free segments, each preceded by a quote. */
  predicate QuotedDocument(prefix: string, segs: seq<string>) {
    Quote !in prefix && AllQuoteFree(segs)
  }

  /** A key segment followed by `: ` and a value segment reads as that value. */
  lemma StringField(prefix: string, segs: seq<string>, m: nat)
    requires QuotedDocument(prefix, segs)
    requires m + 3 < |segs| && (forall i :: 0 <= i < m ==> segs[i] != segs[m]) && ':' !in segs[m]
    requires |segs[m + 1]| > 0 && segs[m + 1][0] == ':'
    ensures RawString(prefix + Quoted(segs), segs[m]) == Some(segs[m + 2])
  {
    var content := prefix + Quoted(segs);
    var k, v1, v2 := segs[m], segs[m + 1], segs[m + 2];
    FindSegment(prefix, segs, m);
    var p := |content| - |Quoted(segs[m..])|;
    QuotedUnfold(segs, m);
    QuotedUnfold(segs, m + 1);
    QuotedUnfold(segs, m + 2);
    var tail := Quoted(segs[m + 3..]);
    var c := p + |k| + 2;
    var o := c + |v1|;
    var e := o + 1 + |v2|;
    StringLayout(content, p, k, v1, v2, tail, c, o, e);
    ReadValueAt(content, p, k, v1, v2, c, o, e);
  }

  /** A key segment followed by `:token` and a terminator reads as `token`. */
  lemma TokenField(prefix: string, segs: seq<string>, m: nat, token: string, term: char, tail: string)
    requires QuotedDocument(prefix, segs)
    requires m + 1 < |segs| && (forall i :: 0 <= i < m ==> segs[i] != segs[m]) && ':' !in segs[m]
    requires segs[m + 1] == ":" + token + [term] + tail
    requires term in Terminators && forall i :: 0 <= i < |token| ==> token[i] !in Terminators
    ensures RawToken(prefix + Quoted(segs), segs[m]) == Some(token)
  {
    var content := prefix + Quoted(segs);
    var k := segs[m];
    FindSegment(prefix, segs, m);
    var p := |content| - |Quoted(segs[m..])|;
    QuotedUnfold(segs, m);
    QuotedUnfold(segs, m + 1);
    var c := p + |k| + 2;
    var e := c + 1 + |token|;
    TokenLayout(content, p, k, token, term, tail, Quoted(segs[m + 2..]), c, e);
    ReadTokenAt(content, p, k, token, term, c, e);
  }

  /** The text `Save` writes before the first quote. */
  const Opening: string := "{\n" + "  "

  /** What separates one field from the next. */
  const Next: string := ",\n" + "  "

  /** The text `Save` writes, cut at its quotes, one group per line. */
  function SaveSegments(cfg: AppConfig, format: real -> string): (segs: seq<string>)
    ensures |segs| == 20
  {
    ["sourceMonitor", ": ", Narrow(cfg.sourceMonitor), Next]
    + (["magnifierMonitor", ": ", Narrow(cfg.magnifierMonitor), Next]
    + (["zoom", ": " + format(cfg.zoom) + Next]
    + (["trackingMode", ": ", ModeName(cfg.mode), Next]
    + (["blockCursor", ": " + BoolText(cfg.blockCursor) + Next]
    + (["autoLaunch", ": " + BoolText(cfg.autoLaunch) + Next]
    + ["invertColors", ": " + BoolText(cfg.invertColors) + "\n" + "}\n"])))))
  }

  lemma QuotedCons(a: string, rest: seq<string>)
    ensures Quoted([a] + rest) == [Quote] + a + Quoted(rest)
  {
    assert ([a] + rest)[1..] == rest;
  }

  /** A string line's segments, quoted, give the line. */
  lemma QuotedStringLine(k: string, v: string, rest: seq<string>)
    ensures "  " + Quoted([k, ": ", v, Next] + rest) == StringLine(k, v, ",\n") + ("  " + Quoted(rest))
  {
    assert [k, ": ", v, Next] + rest == [k] + ([": "] + ([v] + ([Next] + rest)));
    QuotedCons(Next, rest);
    QuotedCons(v, [Next] + rest);
    QuotedCons(": ", [v] + ([Next] + rest));
    QuotedCons(k, [": "] + ([v] + ([Next] + rest)));
  }

  /** A number or boolean line's segments, quoted, give the line. */
  lemma QuotedTokenLine(k: string, v: string, rest: seq<string>)
    ensures "  " + Quoted([k, ": " + v + Next] + rest) == TokenLine(k, v, ",\n") + ("  " + Quoted(rest))
  {
    assert [k, ": " + v + Next] + rest == [k] + ([": " + v + Next] + rest);
    QuotedCons(": " + v + Next, rest);
    QuotedCons(k, [": " + v + Next] + rest);
  }

  /** The last line's segments, quoted, give the line and the closing brace. */
  lemma QuotedLastLine(k: string, v: string)
    ensures "  " + Quoted([k, ": " + v + "\n" + "}\n"]) == TokenLine(k, v, "\n") + "}\n"
  {
    assert [k, ": " + v + "\n" + "}\n"] == [k] + ([": " + v + "\n" + "}\n"] + []);
    QuotedCons(": " + v + "\n" + "}\n", []);
    QuotedCons(k, [": " + v + "\n" + "}\n"] + []);
  }

  lemma Regroup(a: string, l1: string, l2: string, l3: string, l4: string, l5: string, l6: string, l7: string, z: string)
    ensures a + l1 + l2 + l3 + l4 + l5 + l6 + l7 + z == a + (l1 + (l2 + (l3 + (l4 + (l5 + (l6 + (l7 + z)))))))
  {
  }

  /** The lines `Save` writes, nested to the right. */
  function SaveLines(cfg: AppConfig, format: real -> string): string {
    StringLine("sourceMonitor", Narrow(cfg.sourceMonitor), ",\n")
    + (StringLine("magnifierMonitor", Narrow(cfg.magnifierMonitor), ",\n")
    + (TokenLine("zoom", format(cfg.zoom), ",\n")
    + (StringLine("trackingMode", ModeName(cfg.mode), ",\n")
    + (TokenLine("blockCursor", BoolText(cfg.blockCursor), ",\n")
    + (TokenLine("autoLaunch", BoolText(cfg.autoLaunch), ",\n")
    + (TokenLine("invertColors", BoolText(cfg.invertColors), "\n") + "}\n"))))))
  }

  lemma SegmentsAreLines(cfg: AppConfig, format: real -> string)
    ensures "  " + Quoted(SaveSegments(cfg, format)) == SaveLines(cfg, format)
  {
    var g7 := ["invertColors", ": " + BoolText(cfg.invertColors) + "\n" + "}\n"];
    var g6 := ["autoLaunch", ": " + BoolText(cfg.autoLaunch) + Next] + g7;
    var g5 := ["blockCursor", ": " + BoolText(cfg.blockCursor) + Next] + g6;
    var g4 := ["trackingMode", ": ", ModeName(cfg.mode), Next] + g5;
    var g3 := ["zoom", ": " + format(cfg.zoom) + Next] + g4;
    var g2 := ["magnifierMonitor", ": ", Narrow(cfg.magnifierMonitor), Next] + g3;
    QuotedLastLine("invertColors", BoolText(cfg.invertColors));
    QuotedTokenLine("autoLaunch", BoolText(cfg.autoLaunch), g7);
    QuotedTokenLine("blockCursor", BoolText(cfg.blockCursor), g6);
    QuotedStringLine("trackingMode", ModeName(cfg.mode), g5);
    QuotedTokenLine("zoom", format(cfg.zoom), g4);
    QuotedStringLine("magnifierMonitor", Narrow(cfg.magnifierMonitor), g3);
    QuotedStringLine("sourceMonitor", Narrow(cfg.sourceMonitor), g2);
  }

  lemma SaveIsLines(cfg: AppConfig, format: real -> string)
    ensures Save(cfg, format) == "{\n" + SaveLines(cfg, format)
  {
    Regroup("{\n",
      StringLine("sourceMonitor", Narrow(cfg.sourceMonitor), ",\n"),
      StringLine("magnifierMonitor", Narrow(cfg.magnifierMonitor), ",\n"),
      TokenLine("zoom", format(cfg.zoom), ",\n"),
      StringLine("trackingMode", ModeName(cfg.mode), ",\n"),
      TokenLine("blockCursor", BoolText(cfg.blockCursor), ",\n"),
      TokenLine("autoLaunch", BoolText(cfg.autoLaunch), ",\n"),
      TokenLine("invertColors", BoolText(cfg.invertColors), "\n"),
      "}\n");
  }

  /** `Save` writes the opening and then the segments, each behind a quote. */
  lemma SaveIsQuoted(cfg: AppConfig, format: real -> string)
    ensures Save(cfg, format) == Opening + Quoted(SaveSegments(cfg, format))
  {
    SegmentsAreLines(cfg, format);
    SaveIsLines(cfg, format);
    Assoc("{\n", "  ", Quoted(SaveSegments(cfg, format)));
  }

  lemma Assoc(a: string, b: string, c: string)
    ensures a + b + c == a + (b + c)
  {
  }

  /** A monitor name `Save` and `Load` carry unchanged: every character is
      ASCII or in 0xFF80..0xFFFF, none is a quote, and the name is not one
      of the keys. */
  predicate StorableName(n: string) {
    (forall i :: 0 <= i < |n| ==> Storable(n[i]) && n[i] != Quote) && n !in KeyNames
  }

  /** The zoom as written reads back as the same number: its text holds no
      quote and no terminator, and parsing it after the space `Save` puts
      before it gives the zoom. */
  predicate ZoomWritable(z: real, format: real -> string, parse: string -> Option<real>) {
    && Quote !in format(z)
    && (forall i :: 0 <= i < |format(z)| ==> format(z)[i] !in Terminators)
    && parse(" " + format(z)) == Some(z)
  }

  lemma WidenAscii(s: string)
    requires forall i :: 0 <= i < |s| ==> s[i] as int < 128
    ensures Widen(s) == s
  {
  }

  lemma KeysAscii()
    ensures forall k :: k in KeyNames ==> forall i :: 0 <= i < |k| ==> k[i] as int < 128
  {
  }

  /** A storable name narrows to quote-free text that is not a key. */
  lemma NarrowedName(n: string)
    requires StorableName(n)
    ensures Quote !in Narrow(n) && Narrow(n) !in KeyNames && Widen(Narrow(n)) == n
  {
    NarrowWidenExactly(n);
    forall i | 0 <= i < |n| ensures Narrow(n)[i] != Quote {
      assert n[i] as int >= 128 ==> Narrow(n)[i] as int >= 128;
    }
    if Narrow(n) in KeyNames {
      KeysAscii();
      WidenAscii(Narrow(n));
    }
  }

  /** The segments, flattened. */
  lemma SegmentsFlat(cfg: AppConfig, format: real -> string)
    ensures SaveSegments(cfg, format) ==
      [ "sourceMonitor", ": ", Narrow(cfg.sourceMonitor), Next,
        "magnifierMonitor", ": ", Narrow(cfg.magnifierMonitor), Next,
        "zoom", ": " + format(cfg.zoom) + Next,
        "trackingMode", ": ", ModeName(cfg.mode), Next,
        "blockCursor", ": " + BoolText(cfg.blockCursor) + Next,
        "autoLaunch", ": " + BoolText(cfg.autoLaunch) + Next,
        "invertColors", ": " + BoolText(cfg.invertColors) + "\n" + "}\n" ]
  {
  }

  lemma QuoteFreeJoin(a: seq<string>, b: seq<string>)
    requires AllQuoteFree(a) && AllQuoteFree(b)
    ensures AllQuoteFree(a + b)
  {
    forall i | 0 <= i < |a + b| ensures Quote !in (a + b)[i] {
      if i >= |a| {
        assert (a + b)[i] == b[i - |a|];
      }
    }
  }

  lemma StringGroupQuoteFree(k: string, v: string)
    requires Quote !in k && Quote !in v
    ensures AllQuoteFree([k, ": ", v, Next])
  {
  }

  lemma TokenGroupQuoteFree(k: string, v: string, ending: string)
    requires Quote !in k && Quote !in v && Quote !in ending
    ensures AllQuoteFree([k, ": " + v + ending])
  {
  }

  /** Each segment of a saved file, by position. */
  lemma SegmentAt(cfg: AppConfig, format: real -> string)
    ensures var segs := SaveSegments(cfg, format);
      && segs[0] == "sourceMonitor" && segs[1] == ": " && segs[2] == Narrow(cfg.sourceMonitor) && segs[3] == Next
      && segs[4] == "magnifierMonitor" && segs[5] == ": " && segs[6] == Narrow(cfg.magnifierMonitor) && segs[7] == Next
      && segs[8] == "zoom" && segs[9] == ": " + format(cfg.zoom) + Next
      && segs[10] == "trackingMode" && segs[11] == ": " && segs[12] == ModeName(cfg.mode) && segs[13] == Next
      && segs[14] == "blockCursor" && segs[15] == ": " + BoolText(cfg.blockCursor) + Next
      && segs[16] == "autoLaunch" && segs[17] == ": " + BoolText(cfg.autoLaunch) + Next
      && segs[18] == "invertColors" && segs[19] == ": " + BoolText(cfg.invertColors) + "\n" + "}\n"
  {
    SegmentsFlat(cfg, format);
  }

  /** Every key of a saved file is written once before its value: no
      segment ahead of it has the same text. */
  lemma KeyFirst(cfg: AppConfig, format: real -> string, m: nat)
    requires StorableName(cfg.sourceMonitor) && StorableName(cfg.magnifierMonitor)
    requires m == 0 || m == 4 || m == 8 || m == 10 || m == 14 || m == 16 || m == 18
    ensures var segs := SaveSegments(cfg, format);
      forall i :: 0 <= i < m ==> segs[i] != segs[m]
  {
    var segs := SaveSegments(cfg, format);
    SegmentAt(cfg, format);
    NarrowedName(cfg.sourceMonitor);
    NarrowedName(cfg.magnifierMonitor);
    assert segs[m] in KeyNames;
    forall i | 0 <= i < m ensures segs[i] != segs[m] {
      if i == 2 || i == 6 {
      } else if i % 2 == 1 || i == 12 {
        assert |segs[i]| > 0 && segs[i][0] in {':', ',', 'S', 'C', 'M', 'F', 'A'};
      }
    }
  }

  /** The names and the zoom text keep every segment of a saved file
      quote-free. */
  lemma SavedDocument(cfg: AppConfig, format: real -> string)
    requires StorableName(cfg.sourceMonitor) && StorableName(cfg.magnifierMonitor)
    requires Quote !in format(cfg.zoom)
    ensures QuotedDocument(Opening, SaveSegments(cfg, format))
  {
    NarrowedName(cfg.sourceMonitor);
    NarrowedName(cfg.magnifierMonitor);
    var g1 := ["sourceMonitor", ": ", Narrow(cfg.sourceMonitor), Next];
    var g2 := ["magnifierMonitor", ": ", Narrow(cfg.magnifierMonitor), Next];
    var g3 := ["zoom", ": " + format(cfg.zoom) + Next];
    var g4 := ["trackingMode", ": ", ModeName(cfg.mode), Next];
    var g5 := ["blockCursor", ": " + BoolText(cfg.blockCursor) + Next];
    var g6 := ["autoLaunch", ": " + BoolText(cfg.autoLaunch) + Next];
    var g7 := ["invertColors", ": " + BoolText(cfg.invertColors) + "\n" + "}\n"];
    StringGroupQuoteFree("sourceMonitor", Narrow(cfg.sourceMonitor));
    StringGroupQuoteFree("magnifierMonitor", Narrow(cfg.magnifierMonitor));
    TokenGroupQuoteFree("zoom", format(cfg.zoom), Next);
    StringGroupQuoteFree("trackingMode", ModeName(cfg.mode));
    TokenGroupQuoteFree("blockCursor", BoolText(cfg.blockCursor), Next);
    TokenGroupQuoteFree("autoLaunch", BoolText(cfg.autoLaunch), Next);
    TokenGroupQuoteFree("invertColors", BoolText(cfg.invertColors), "\n" + "}\n");
    QuoteFreeJoin(g6, g7);
    QuoteFreeJoin(g5, g6 + g7);
    QuoteFreeJoin(g4, g5 + (g6 + g7));
    QuoteFreeJoin(g3, g4 + (g5 + (g6 + g7)));
    QuoteFreeJoin(g2, g3 + (g4 + (g5 + (g6 + g7))));
    QuoteFreeJoin(g1, g2 + (g3 + (g4 + (g5 + (g6 + g7)))));
  }

  /** The text of a boolean field, as written, reads back as that boolean. */
  lemma BoolTextReads(b: bool)
    ensures IndexOf(" " + BoolText(b), "true", 0).Some? <==> b
    ensures !b ==> IndexOf(" " + BoolText(b), "false", 0).Some?
  {
    var t := " " + BoolText(b);
    if b {
      assert MatchAt(t, "true", 1);
    } else {
      assert MatchAt(t, "false", 1);
      forall j | 0 <= j ensures !MatchAt(t, "true", j) {
        if 0 <= j && j + 4 <= |t| {
          assert t[j..j + 4][1] == t[j + 1];
        }
      }
    }
  }

  lemma SavedSourceMonitor(cfg: AppConfig, format: real -> string)
    requires StorableName(cfg.sourceMonitor) && StorableName(cfg.magnifierMonitor)
    requires Quote !in format(cfg.zoom)
    ensures RawString(Save(cfg, format), "sourceMonitor") == Some(Narrow(cfg.sourceMonitor))
  {
    var segs := SaveSegments(cfg, format);
    SaveIsQuoted(cfg, format);
    SavedDocument(cfg, format);
    SegmentAt(cfg, format);
    StringField(Opening, segs, 0);
  }

  lemma SavedMagnifierMonitor(cfg: AppConfig, format: real -> string)
    requires StorableName(cfg.sourceMonitor) && StorableName(cfg.magnifierMonitor)
    requires Quote !in format(cfg.zoom)
    ensures RawString(Save(cfg, format), "magnifierMonitor") == Some(Narrow(cfg.magnifierMonitor))
  {
    var segs := SaveSegments(cfg, format);
    SaveIsQuoted(cfg, format);
    SavedDocument(cfg, format);
    SegmentAt(cfg, format);
    KeyFirst(cfg, format, 4);
    StringField(Opening, segs, 4);
  }

  lemma TokenSegment(v: string)
    ensures ": " + v + Next == ":" + (" " + v) + [','] + ("\n" + "  ")
  {
  }

  lemma LastSegment(v: string)
    ensures ": " + v + "\n" + "}\n" == ":" + (" " + v) + ['\n'] + "}\n"
  {
  }

  lemma SavedZoom(cfg: AppConfig, format: real -> string, parse: string -> Option<real>)
    requires StorableName(cfg.sourceMonitor) && StorableName(cfg.magnifierMonitor)
    requires ZoomWritable(cfg.zoom, format, parse)
    ensures RawToken(Save(cfg, format), "zoom") == Some(" " + format(cfg.zoom))
  {
    var segs := SaveSegments(cfg, format);
    SaveIsQuoted(cfg, format);
    SavedDocument(cfg, format);
    SegmentAt(cfg, format);
    KeyFirst(cfg, format, 8);
    TokenSegment(format(cfg.zoom));
    TokenField(Opening, segs, 8, " " + format(cfg.zoom), ',', "\n" + "  ");
  }

  lemma SavedMode(cfg: AppConfig, format: real -> string)
    requires StorableName(cfg.sourceMonitor) && StorableName(cfg.magnifierMonitor)
    requires Quote !in format(cfg.zoom)
    ensures RawString(Save(cfg, format), "trackingMode") == Some(ModeName(cfg.mode))
  {
    var segs := SaveSegments(cfg, format);
    SaveIsQuoted(cfg, format);
    SavedDocument(cfg, format);
    SegmentAt(cfg, format);
    KeyFirst(cfg, format, 10);
    StringField(Opening, segs, 10);
  }

  lemma SavedBlockCursor(cfg: AppConfig, format: real -> string)
    requires StorableName(cfg.sourceMonitor) && StorableName(cfg.magnifierMonitor)
    requires Quote !in format(cfg.zoom)
    ensures RawToken(Save(cfg, format), "blockCursor") == Some(" " + BoolText(cfg.blockCursor))
  {
    var segs := SaveSegments(cfg, format);
    SaveIsQuoted(cfg, format);
    SavedDocument(cfg, format);
    SegmentAt(cfg, format);
    KeyFirst(cfg, format, 14);
    TokenSegment(BoolText(cfg.blockCursor));
    TokenField(Opening, segs, 14, " " + BoolText(cfg.blockCursor), ',', "\n" + "  ");
  }

  lemma SavedAutoLaunch(cfg: AppConfig, format: real -> string)
    requires StorableName(cfg.sourceMonitor) && StorableName(cfg.magnifierMonitor)
    requires Quote !in format(cfg.zoom)
    ensures RawToken(Save(cfg, format), "autoLaunch") == Some(" " + BoolText(cfg.autoLaunch))
  {
    var segs := SaveSegments(cfg, format);
    SaveIsQuoted(cfg, format);
    SavedDocument(cfg, format);
    SegmentAt(cfg, format);
    KeyFirst(cfg, format, 16);
    TokenSegment(BoolText(cfg.autoLaunch));
    TokenField(Opening, segs, 16, " " + BoolText(cfg.autoLaunch), ',', "\n" + "  ");
  }

  lemma SavedInvertColors(cfg: AppConfig, format: real -> string)
    requires StorableName(cfg.sourceMonitor) && StorableName(cfg.magnifierMonitor)
    requires Quote !in format(cfg.zoom)
    ensures RawToken(Save(cfg, format), "invertColors") == Some(" " + BoolText(cfg.invertColors))
  {
    var segs := SaveSegments(cfg, format);
    SaveIsQuoted(cfg, format);
    SavedDocument(cfg, format);
    SegmentAt(cfg, format);
    KeyFirst(cfg, format, 18);
    LastSegment(BoolText(cfg.invertColors));
    TokenField(Opening, segs, 18, " " + BoolText(cfg.invertColors), '\n', "}\n");
  }

  lemma ModeNameAscii(m: CS.TrackingMode)
    ensures Widen(ModeName(m)) == ModeName(m)
  {
    WidenAscii(ModeName(m));
  }

  /** Saving the settings and loading the file back gives the same
      settings, whatever was loaded before, when both monitor names are
      storable and the zoom text reads back as the zoom. */
  lemma SaveLoadRoundTrip(cfg: AppConfig, current: AppConfig, format: real -> string, parse: string -> Option<real>)
    requires StorableName(cfg.sourceMonitor) && StorableName(cfg.magnifierMonitor)
    requires ZoomWritable(cfg.zoom, format, parse)
    ensures Load(Some(Save(cfg, format)), current, parse) == cfg
  {
    var content := Save(cfg, format);
    SavedSourceMonitor(cfg, format);
    SavedMagnifierMonitor(cfg, format);
    SavedZoom(cfg, format, parse);
    SavedMode(cfg, format);
    SavedBlockCursor(cfg, format);
    SavedAutoLaunch(cfg, format);
    SavedInvertColors(cfg, format);
    NarrowedName(cfg.sourceMonitor);
    NarrowedName(cfg.magnifierMonitor);
    ModeNameAscii(cfg.mode);
    ModeNamesRoundTrip(cfg.mode, "");
    BoolTextReads(cfg.blockCursor);
    BoolTextReads(cfg.autoLaunch);
    BoolTextReads(cfg.invertColors);
  }
}
