/** The module-specifier rewriter: before a module's text is loaded from a
    blob URL, every import specifier that is not already a browser URL is
    replaced by one, and blob URLs are mapped back to the source URL they were
    made from, so that a running module can find out which URL imported it.

    The lexer that finds the import ranges, the WHATWG URL parser that resolves
    a relative specifier and the stack-trace parser are outside this model:
    their results are parameters (`imports`, `resolve`, `frames`). */
module Rewriter {
  import opened Options

  predicate StartsWith(s: string, prefix: string) {
    |prefix| <= |s| && s[..|prefix|] == prefix
  }

  // ---------------------------------------------------------------------------
  // Browser URLs

  /** Browser and blob URLs, not `data:` URLs. */
  predicate IsBrowserUrl(url: string) {
    || StartsWith(url, "http://")
    || StartsWith(url, "https://")
    || StartsWith(url, "blob:http://")
    || StartsWith(url, "blob:https://")
  }

  /** A browser URL is an `http:` or `https:` URL, possibly wrapped in `blob:`:
      it is `scheme://...` or `blob:scheme://...` for one of the two schemes. */
  lemma BrowserUrlShape(url: string)
    ensures IsBrowserUrl(url) <==>
      exists scheme, rest :: scheme in {"http", "https"} && rest in {"", "blob:"} &&
        StartsWith(url, rest + scheme + "://")
  {
    if IsBrowserUrl(url) {
      if StartsWith(url, "http://") {
        assert "" + "http" + "://" == "http://";
      } else if StartsWith(url, "https://") {
        assert "" + "https" + "://" == "https://";
      } else if StartsWith(url, "blob:http://") {
        assert "blob:" + "http" + "://" == "blob:http://";
      } else {
        assert "blob:" + "https" + "://" == "blob:https://";
      }
    }
  }

  /** A string that starts with a non-empty prefix starts with its first
      character. */
  lemma HeadOf(s: string, prefix: string)
    requires |s| > 0 && |prefix| > 0
    ensures StartsWith(s, prefix) ==> s[0] == prefix[0]
  {
    assert |prefix| <= |s| ==> s[..|prefix|][0] == s[0];
  }

  /** `data:` URLs, relative specifiers and bare names are never browser URLs. */
  lemma NotBrowserUrl(url: string)
    requires StartsWith(url, "data:") || StartsWith(url, ".") || StartsWith(url, "/") ||
             StartsWith(url, "npm:") || StartsWith(url, "node:")
    ensures !IsBrowserUrl(url)
  {
    HeadOf(url, "data:");
    HeadOf(url, ".");
    HeadOf(url, "/");
    HeadOf(url, "npm:");
    HeadOf(url, "node:");
    HeadOf(url, "http://");
    HeadOf(url, "https://");
    HeadOf(url, "blob:http://");
    HeadOf(url, "blob:https://");
  }

  // ---------------------------------------------------------------------------
  // Mapping one specifier

  const Https: string := "https://"
  const NodeLibs: string := Https + "raw.esm.sh/@jspm/core/nodelibs/browser/"
  const EsmSh: string := Https + "esm.sh/"

  /** The URL a specifier is rewritten to. `resolve(spec, base)` stands for
      `new URL(spec, base).href`. */
  function MapSpecifier(spec: string, sourceUrl: string, resolve: (string, string) -> string): string {
    if StartsWith(spec, ".") || StartsWith(spec, "/") then resolve(spec, sourceUrl)
    else if StartsWith(spec, "node:") then NodeLibs + spec[5..] + ".js"
    else if StartsWith(spec, "npm:") then EsmSh + spec[4..]
    else EsmSh + spec
  }

  /** A relative or root-relative specifier is resolved against the module's URL. */
  lemma MapRelative(spec: string, sourceUrl: string, resolve: (string, string) -> string)
    requires |spec| > 0 && spec[0] in {'.', '/'}
    ensures MapSpecifier(spec, sourceUrl, resolve) == resolve(spec, sourceUrl)
  {
    assert spec[..1] == [spec[0]];
  }

  /** `node:X` is served by the browser build of `@jspm/core`. */
  lemma MapNode(name: string, sourceUrl: string, resolve: (string, string) -> string)
    ensures MapSpecifier("node:" + name, sourceUrl, resolve) == NodeLibs + name + ".js"
  {
    var spec := "node:" + name;
    assert spec[..5] == "node:" && spec[5..] == name;
    assert spec[0] == 'n';
  }

  /** `npm:X` is served by esm.sh under the bare name `X`. */
  lemma MapNpm(name: string, sourceUrl: string, resolve: (string, string) -> string)
    ensures MapSpecifier("npm:" + name, sourceUrl, resolve) == EsmSh + name
  {
    var spec := "npm:" + name;
    assert spec[..4] == "npm:" && spec[4..] == name;
    assert spec[0] == 'n';
    assert !StartsWith(spec, "node:") by {
      if |spec| >= 5 {
        assert spec[..5][3] == ':';
      }
    }
  }

  /** Any other specifier, a bare module name, is served by esm.sh as it is. */
  lemma MapBare(spec: string, sourceUrl: string, resolve: (string, string) -> string)
    requires |spec| > 0 && spec[0] !in {'.', '/'}
    requires !StartsWith(spec, "node:") && !StartsWith(spec, "npm:")
    ensures MapSpecifier(spec, sourceUrl, resolve) == EsmSh + spec
  {
    assert spec[..1] == [spec[0]];
  }

  /** Every specifier not resolved against the module's URL is rewritten to an
      `https:` URL, which the rewriter leaves alone if it meets it again. */
  lemma MappedIsBrowserUrl(spec: string, sourceUrl: string, resolve: (string, string) -> string)
    requires !StartsWith(spec, ".") && !StartsWith(spec, "/")
    ensures IsBrowserUrl(MapSpecifier(spec, sourceUrl, resolve))
  {
    var r := MapSpecifier(spec, sourceUrl, resolve);
    assert r[..8] == "https://" by {
      if StartsWith(spec, "node:") {
        assert r == NodeLibs + (spec[5..] + ".js");
        assert r[..8] == NodeLibs[..8] == Https;
      } else {
        assert r[..8] == EsmSh[..8] == Https;
      }
    }
  }

  /** The rewriting of one specifier for a module loaded from `sourceUrl`. */
  function Mapper(sourceUrl: string, resolve: (string, string) -> string): string -> string {
    spec => MapSpecifier(spec, sourceUrl, resolve)
  }

  // ---------------------------------------------------------------------------
  // Rewriting a module

  /** The lexer's report of one import: the specifier occupies `code[s..e]`. */
  datatype Import = Import(s: nat, e: nat)

  /** What the lexer guarantees: ranges inside the text, in ascending order,
      not overlapping, all starting at or after `from`. */
  predicate Ordered(imports: seq<Import>, from: nat, n: nat) {
    && from <= n
    && (forall i :: 0 <= i < |imports| ==> from <= imports[i].s <= imports[i].e <= n)
    && (forall i, j :: 0 <= i < j < |imports| ==> imports[i].e <= imports[j].s)
  }

  /** The imports whose specifier is not already a browser URL. */
  function Rewritable(code: string, imports: seq<Import>): (r: seq<Import>)
    requires forall i :: 0 <= i < |imports| ==> imports[i].s <= imports[i].e <= |code|
    ensures forall im :: im in r <==> im in imports && !IsBrowserUrl(code[im.s..im.e])
    ensures |r| <= |imports|
  {
    if imports == [] then []
    else
      var rest := Rewritable(code, imports[1..]);
      if IsBrowserUrl(code[imports[0].s..imports[0].e]) then rest else [imports[0]] + rest
  }

  /** Dropping imports keeps the rest in their order. */
  lemma {:induction false} RewritableOrdered(code: string, imports: seq<Import>, from: nat)
    requires Ordered(imports, from, |code|)
    ensures Ordered(Rewritable(code, imports), from, |code|)
    decreases |imports|
  {
    if imports != [] {
      var im := imports[0];
      OrderedTail(imports, from, |code|);
      RewritableOrdered(code, imports[1..], im.e);
      var rest := Rewritable(code, imports[1..]);
      assert Rewritable(code, imports) == if IsBrowserUrl(code[im.s..im.e]) then rest else [im] + rest;
      OrderedWeaken(rest, from, im.e, |code|);
      OrderedCons(im, rest, from, |code|);
    }
  }

  /** The imports after the first start where the first ends. */
  lemma OrderedTail(imports: seq<Import>, from: nat, n: nat)
    requires Ordered(imports, from, n) && imports != []
    ensures Ordered(imports[1..], imports[0].e, n)
  {
    forall i | 0 <= i < |imports| - 1
      ensures imports[0].e <= imports[1..][i].s <= imports[1..][i].e <= n
    {
      assert imports[1..][i] == imports[i + 1];
    }
    forall i, j | 0 <= i < j < |imports| - 1
      ensures imports[1..][i].e <= imports[1..][j].s
    {
      assert imports[1..][i] == imports[i + 1] && imports[1..][j] == imports[j + 1];
    }
  }

  lemma OrderedWeaken(imports: seq<Import>, from: nat, from': nat, n: nat)
    requires Ordered(imports, from', n) && from <= from'
    ensures Ordered(imports, from, n)
  {
  }

  lemma OrderedCons(im: Import, rest: seq<Import>, from: nat, n: nat)
    requires from <= im.s <= im.e && Ordered(rest, im.e, n)
    ensures Ordered([im] + rest, from, n)
  {
    var r := [im] + rest;
    assert forall i :: 0 < i < |r| ==> r[i] == rest[i - 1];
  }

  /** The rewritten text of `code[from..]`: every listed range replaced by its
      mapped specifier, all text between and after the ranges kept. This is
      the front-to-back reading of the rewriter's splices. */
  function Spliced(code: string, imports: seq<Import>, from: nat, rw: string -> string): string
    requires Ordered(imports, from, |code|)
    decreases |imports|
  {
    if imports == [] then code[from..]
    else
      var im := imports[0];
      assert Ordered(imports[1..], im.e, |code|);
      code[from..im.s] + (rw(code[im.s..im.e]) + Spliced(code, imports[1..], im.e, rw))
  }

  /** When every listed specifier maps to itself, the text is unchanged: the
      splices touch nothing but the listed ranges. */
  lemma {:induction false} SplicedIdentity(code: string, imports: seq<Import>, from: nat, rw: string -> string)
    requires Ordered(imports, from, |code|)
    requires forall im :: im in imports ==> rw(code[im.s..im.e]) == code[im.s..im.e]
    ensures Spliced(code, imports, from, rw) == code[from..]
    decreases |imports|
  {
    if imports != [] {
      var im := imports[0];
      OrderedTail(imports, from, |code|);
      assert forall im' :: im' in imports[1..] ==> im' in imports;
      SplicedIdentity(code, imports[1..], im.e, rw);
      assert imports[0] in imports;
      assert Spliced(code, imports, from, rw)
          == code[from..im.s] + (code[im.s..im.e] + Spliced(code, imports[1..], im.e, rw));
      Slices3(code, from, im.s, im.e);
    }
  }

  /** `rw`, except that a browser URL maps to itself. */
  function Keeping(rw: string -> string): string -> string {
    spec => if IsBrowserUrl(spec) then spec else rw(spec)
  }

  /** Filtering out the browser-URL imports and splicing the rest is the same
      as splicing every import with browser URLs mapped to themselves: the
      imports filtered out keep their text byte for byte. */
  lemma {:induction false} SplicedFilter(code: string, imports: seq<Import>, from: nat, rw: string -> string)
    requires Ordered(imports, from, |code|)
    ensures Ordered(Rewritable(code, imports), from, |code|)
    ensures Spliced(code, Rewritable(code, imports), from, rw) == Spliced(code, imports, from, Keeping(rw))
    decreases |imports|
  {
    RewritableOrdered(code, imports, from);
    if imports != [] {
      var im := imports[0];
      OrderedTail(imports, from, |code|);
      SplicedFilter(code, imports[1..], im.e, rw);
      var rest := Rewritable(code, imports[1..]);
      var tail := Spliced(code, imports[1..], im.e, Keeping(rw));
      assert Spliced(code, imports, from, Keeping(rw))
          == code[from..im.s] + (Keeping(rw)(code[im.s..im.e]) + tail);
      if IsBrowserUrl(code[im.s..im.e]) {
        assert Rewritable(code, imports) == rest;
        OrderedWeaken(rest, from, im.e, |code|);
        SplicedShift(code, rest, from, im.e, rw);
        SliceSplit(code, from, im.s, im.e);
        ConcatAssoc(code[from..im.s], code[im.s..im.e], tail);
      } else {
        assert Rewritable(code, imports) == [im] + rest;
        assert ([im] + rest)[0] == im && ([im] + rest)[1..] == rest;
      }
    }
  }

  /** Three adjacent slices make up the suffix they cover. */
  lemma Slices3(code: string, a: nat, b: nat, c: nat)
    requires a <= b <= c <= |code|
    ensures code[a..b] + (code[b..c] + code[c..]) == code[a..]
  {
    assert code[b..c] + code[c..] == code[b..];
    assert code[a..b] + code[b..] == code[a..];
  }

  /** The rewritten text grows by what each replacement adds over its specifier. */
  function Growth(code: string, imports: seq<Import>, rw: string -> string): int
    requires forall i :: 0 <= i < |imports| ==> imports[i].s <= imports[i].e <= |code|
  {
    if imports == [] then 0
    else
      var im := imports[0];
      |rw(code[im.s..im.e])| - (im.e - im.s) + Growth(code, imports[1..], rw)
  }

  lemma {:induction false} SplicedLength(code: string, imports: seq<Import>, from: nat, rw: string -> string)
    requires Ordered(imports, from, |code|)
    ensures |Spliced(code, imports, from, rw)| == |code| - from + Growth(code, imports, rw)
    decreases |imports|
  {
    if imports != [] {
      assert Ordered(imports[1..], imports[0].e, |code|);
      SplicedLength(code, imports[1..], imports[0].e, rw);
    }
  }

  /** `rewriteModule(code, sourceUrl)`: splices the rewritten specifiers in
      from the last import to the first, so that the offsets of the imports
      still to be processed stay valid, then hands the text to the
      configurable post-processing hook. Each specifier read from the text
      being rewritten is the original one; the result is the front-to-back
      rewrite, passed through the hook. */
  method RewriteModule(code: string, sourceUrl: string, imports: seq<Import>,
                       resolve: (string, string) -> string, hook: (string, string) -> string)
    returns (out: string)
    requires Ordered(imports, 0, |code|)
    ensures Ordered(Rewritable(code, imports), 0, |code|)
    ensures out == hook(Spliced(code, Rewritable(code, imports), 0, Mapper(sourceUrl, resolve)), sourceUrl)
    ensures out == hook(Spliced(code, imports, 0, Keeping(Mapper(sourceUrl, resolve))), sourceUrl)
  {
    SplicedFilter(code, imports, 0, Mapper(sourceUrl, resolve));
    var rewritable := Rewritable(code, imports);
    RewritableOrdered(code, imports, 0);
    var rw := Mapper(sourceUrl, resolve);
    var text := code;
    var i := |rewritable|;
    while i > 0
      invariant 0 <= i <= |rewritable|
      invariant Ordered(rewritable[i..], Done(rewritable, i, |code|), |code|)
      invariant text == code[..Done(rewritable, i, |code|)]
                        + Spliced(code, rewritable[i..], Done(rewritable, i, |code|), rw)
    {
      i := i - 1;
      var im := rewritable[i];
      SpliceStep(code, rewritable, i, text, rw);
      var specifier := text[im.s..im.e];
      var rewritten := rw(specifier);
      text := text[..im.s] + rewritten + text[im.e..];
    }
    SplicedShift(code, rewritable, 0, Done(rewritable, 0, |code|), rw);
    out := hook(text, sourceUrl);
  }

  /** One splice of the reverse loop: the text past the import is already
      rewritten and the text before it is still the original, so the
      specifier read is the original one and the splice extends the rewritten
      part to start at this import. */
  lemma SpliceStep(code: string, imports: seq<Import>, i: nat, text: string, rw: string -> string)
    requires Ordered(imports, 0, |code|) && i < |imports|
    requires Ordered(imports[i + 1..], Done(imports, i + 1, |code|), |code|)
    requires text == code[..Done(imports, i + 1, |code|)]
                     + Spliced(code, imports[i + 1..], Done(imports, i + 1, |code|), rw)
    ensures imports[i].e <= |text|
    ensures text[imports[i].s..imports[i].e] == code[imports[i].s..imports[i].e]
    ensures Ordered(imports[i..], Done(imports, i, |code|), |code|)
    ensures text[..imports[i].s] + rw(code[imports[i].s..imports[i].e]) + text[imports[i].e..]
            == code[..Done(imports, i, |code|)] + Spliced(code, imports[i..], Done(imports, i, |code|), rw)
  {
    var im := imports[i];
    var d := Done(imports, i + 1, |code|);
    var t := Spliced(code, imports[i + 1..], d, rw);
    assert im.e <= d;
    PrefixSlices(code, t, im.s, im.e, d);
    assert imports[i..][0] == im && imports[i..][1..] == imports[i + 1..];
    OrderedSuffix(imports, i, 0, |code|);
    SplicedShift(code, imports[i + 1..], im.e, d, rw);
    var m := rw(code[im.s..im.e]);
    var rest := Spliced(code, imports[i + 1..], im.e, rw);
    assert rest == code[im.e..d] + t;
    assert text[..im.s] + m + text[im.e..] == code[..im.s] + m + (code[im.e..d] + t);
    ConcatAssoc(code[..im.s], m, code[im.e..d] + t);
    assert Spliced(code, imports[i..], im.s, rw) == code[im.s..im.s] + (m + rest);
    assert code[im.s..im.s] + (m + rest) == m + rest;
    assert Done(imports, i, |code|) == im.s;
  }

  /** The imports from index `i` on, all starting at or after import `i`. */
  lemma OrderedSuffix(imports: seq<Import>, i: nat, from: nat, n: nat)
    requires Ordered(imports, from, n) && i < |imports|
    ensures Ordered(imports[i..], imports[i].s, n)
  {
    forall k | 0 <= k < |imports[i..]|
      ensures imports[i].s <= imports[i..][k].s
    {
      assert imports[i..][k] == imports[i + k];
    }
  }

  /** Slices of a text whose first `d` characters are those of `code`. */
  lemma PrefixSlices(code: string, t: string, s: nat, e: nat, d: nat)
    requires s <= e <= d <= |code|
    ensures var text := code[..d] + t;
      && text[..s] == code[..s] && text[s..e] == code[s..e] && text[e..] == code[e..d] + t
  {
    var text := code[..d] + t;
    assert text[e..] == code[..d][e..] + t;
  }

  lemma SliceSplit(code: string, a: nat, b: nat, c: nat)
    requires a <= b <= c <= |code|
    ensures code[a..c] == code[a..b] + code[b..c]
  {
  }

  lemma ConcatAssoc(a: string, b: string, c: string)
    ensures (a + b) + c == a + (b + c)
  {
  }

  /** Where the part of the text still original ends once the imports from
      index `i` on have been spliced. */
  function Done(imports: seq<Import>, i: nat, n: nat): nat
    requires i <= |imports|
  {
    if i < |imports| then imports[i].s else n
  }

  /** The text before the first listed range can be split off. */
  lemma SplicedShift(code: string, imports: seq<Import>, from: nat, mid: nat, rw: string -> string)
    requires Ordered(imports, from, |code|) && from <= mid <= |code|
    requires imports != [] ==> mid <= imports[0].s
    ensures Ordered(imports, mid, |code|)
    ensures Spliced(code, imports, from, rw) == code[from..mid] + Spliced(code, imports, mid, rw)
  {
    if imports == [] {
      assert code[from..] == code[from..mid] + code[mid..];
    } else {
      var im := imports[0];
      OrderedSuffix(imports, 0, from, |code|);
      assert imports[0..] == imports;
      OrderedWeaken(imports, mid, im.s, |code|);
      OrderedTail(imports, from, |code|);
      var x := rw(code[im.s..im.e]) + Spliced(code, imports[1..], im.e, rw);
      assert Spliced(code, imports, from, rw) == code[from..im.s] + x;
      assert Spliced(code, imports, mid, rw) == code[mid..im.s] + x;
      SliceSplit(code, from, mid, im.s);
      ConcatAssoc(code[from..mid], code[mid..im.s], x);
    }
  }

  // ---------------------------------------------------------------------------
  // Finding the importer

  /** A stack frame's file names a module other than this one. */
  predicate Candidate(file: Option<string>, selfUrl: string) {
    file.Some? && file.value != "" && file.value != selfUrl
  }

  predicate IsBlob(file: string) {
    StartsWith(file, "blob:")
  }

  /** A frame `getImporterUrl` answers from: a candidate that is not a blob
      URL, or a blob URL this loader created. */
  predicate Answers(file: Option<string>, selfUrl: string, blobMap: map<string, string>) {
    Candidate(file, selfUrl) && (IsBlob(file.value) ==> file.value in blobMap)
  }

  /** The answer such a frame gives: a blob URL stands for the source URL it
      was created for. */
  function AnswerOf(file: string, blobMap: map<string, string>): string
    requires IsBlob(file) ==> file in blobMap
  {
    if IsBlob(file) then blobMap[file] else file
  }

  /** The importer, read off the stack from the innermost frame outwards. */
  function Importer(frames: seq<Option<string>>, selfUrl: string, blobMap: map<string, string>): Option<string> {
    if frames == [] then None
    else if Answers(frames[0], selfUrl, blobMap) then Some(AnswerOf(frames[0].value, blobMap))
    else Importer(frames[1..], selfUrl, blobMap)
  }

  /** `Importer` is the answer of the first frame that answers, and there is
      none exactly when no frame does. */
  lemma {:induction false} ImporterFirst(frames: seq<Option<string>>, selfUrl: string, blobMap: map<string, string>)
    ensures Importer(frames, selfUrl, blobMap).None? <==>
      forall i :: 0 <= i < |frames| ==> !Answers(frames[i], selfUrl, blobMap)
    ensures Importer(frames, selfUrl, blobMap).Some? ==>
      exists i :: 0 <= i < |frames| && Answers(frames[i], selfUrl, blobMap) &&
        (forall j :: 0 <= j < i ==> !Answers(frames[j], selfUrl, blobMap)) &&
        Importer(frames, selfUrl, blobMap).value == AnswerOf(frames[i].value, blobMap)
    decreases |frames|
  {
    if frames != [] && !Answers(frames[0], selfUrl, blobMap) {
      ImporterFirst(frames[1..], selfUrl, blobMap);
      if Importer(frames, selfUrl, blobMap).Some? {
        var i :| 0 <= i < |frames[1..]| && Answers(frames[1..][i], selfUrl, blobMap) &&
          (forall j :: 0 <= j < i ==> !Answers(frames[1..][j], selfUrl, blobMap)) &&
          Importer(frames[1..], selfUrl, blobMap).value == AnswerOf(frames[1..][i].value, blobMap);
        assert Answers(frames[i + 1], selfUrl, blobMap);
        assert forall j :: 0 <= j < i + 1 ==> !Answers(frames[j], selfUrl, blobMap) by {
          forall j | 0 <= j < i + 1 ensures !Answers(frames[j], selfUrl, blobMap) {
            if j > 0 {
              assert frames[j] == frames[1..][j - 1];
            }
          }
        }
      }
      if Importer(frames, selfUrl, blobMap).None? {
        forall i | 0 <= i < |frames| ensures !Answers(frames[i], selfUrl, blobMap) {
          if i > 0 {
            assert frames[i] == frames[1..][i - 1];
          }
        }
      }
    }
  }

  /** `getImporterUrl()`: walks the parsed stack from the innermost frame,
      skipping empty files, this module's own URL and blob URLs it did not
      create; `None` stands for `null`. */
  method GetImporterUrl(frames: seq<Option<string>>, selfUrl: string, blobMap: map<string, string>)
    returns (r: Option<string>)
    ensures r == Importer(frames, selfUrl, blobMap)
  {
    for i := 0 to |frames|
      invariant Importer(frames, selfUrl, blobMap) == Importer(frames[i..], selfUrl, blobMap)
    {
      assert frames[i..][0] == frames[i] && frames[i..][1..] == frames[i + 1..];
      var file := frames[i];
      if file.Some? && file.value != "" && file.value != selfUrl {
        if StartsWith(file.value, "blob:") {
          if file.value in blobMap {
            return Some(blobMap[file.value]);
          }
          continue;
        }
        return Some(file.value);
      }
    }
    assert frames[|frames|..] == [];
    return None;
  }

  // ---------------------------------------------------------------------------
  // Loading a module from a blob URL

  /** The loader's global state: the map from the blob URLs it created to the
      source URLs whose text they hold. */
  class Loader {
    var blobMap: map<string, string>

    constructor ()
      ensures blobMap == map[]
    {
      blobMap := map[];
    }

    /** `esm(code, sourceUrl)`: rewrites the module, records the fresh blob URL
        `blobUrl` the text is stored under, and returns the text the module is
        imported from. The entry stays after the URL is revoked. */
    method Esm(code: string, sourceUrl: string, imports: seq<Import>, resolve: (string, string) -> string,
               hook: (string, string) -> string, blobUrl: string)
      returns (text: string)
      requires Ordered(imports, 0, |code|)
      modifies this
      ensures Ordered(Rewritable(code, imports), 0, |code|)
      ensures text == hook(Spliced(code, Rewritable(code, imports), 0, Mapper(sourceUrl, resolve)), sourceUrl)
      ensures blobMap == old(blobMap)[blobUrl := sourceUrl]
    {
      text := RewriteModule(code, sourceUrl, imports, resolve, hook);
      blobMap := blobMap[blobUrl := sourceUrl];
    }
  }

  /** After a module is loaded from blob URL `blobUrl`, code running in it
      finds its source URL: the stack's innermost frames (`getImporterUrl`'s
      own, which name this module) give no answer, and the first frame that
      does is the blob module's. */
  lemma ImporterAfterEsm(frames: seq<Option<string>>, selfUrl: string, blobMap: map<string, string>,
                         blobUrl: string, sourceUrl: string, i: nat)
    requires i < |frames| && frames[i] == Some(blobUrl) && IsBlob(blobUrl) && blobUrl != selfUrl
    requires forall j :: 0 <= j < i ==> !Answers(frames[j], selfUrl, blobMap[blobUrl := sourceUrl])
    ensures Importer(frames, selfUrl, blobMap[blobUrl := sourceUrl]) == Some(sourceUrl)
  {
    var m := blobMap[blobUrl := sourceUrl];
    assert Answers(frames[i], selfUrl, m);
    ImporterFirst(frames, selfUrl, m);
    var k :| 0 <= k < |frames| && Answers(frames[k], selfUrl, m) &&
      (forall j :: 0 <= j < k ==> !Answers(frames[j], selfUrl, m)) &&
      Importer(frames, selfUrl, m).value == AnswerOf(frames[k].value, m);
    assert k == i;
  }

  /** The same with the usual stack: frames before the blob module's name no
      file or this module itself. */
  lemma ImporterBehindSelf(frames: seq<Option<string>>, selfUrl: string, blobMap: map<string, string>,
                           blobUrl: string, sourceUrl: string, i: nat)
    requires i < |frames| && frames[i] == Some(blobUrl) && IsBlob(blobUrl) && blobUrl != selfUrl
    requires forall j :: 0 <= j < i ==> frames[j] in {None, Some(""), Some(selfUrl)}
    ensures Importer(frames, selfUrl, blobMap[blobUrl := sourceUrl]) == Some(sourceUrl)
  {
    ImporterAfterEsm(frames, selfUrl, blobMap, blobUrl, sourceUrl, i);
  }
}
