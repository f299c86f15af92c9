/// The three regular expressions of pdfinfo.go, as hand-written matchers
/// with the meaning Go's RE2 engine gives them (leftmost-first: a lazy group
/// takes as little as it can, a greedy one as much as it can, earlier groups
/// first). Each matcher is paired with a predicate that describes, without
/// any search, which decompositions of the input the pattern accepts, and
/// lemmas prove that the matcher returns exactly the decomposition RE2 picks.
module Grammar {
  import opened Common

  // ---------------------------------------------------------------------
  // `^(.*?):[\t ]*(.*)$`: one line of pdfinfo output.
  // ---------------------------------------------------------------------

  /** `line` reads as `key`, a colon, the blanks `ws`, then `value`, with the
      key stopping at the first colon (the lazy group) and `ws` taking every
      blank after it (the greedy class). */
  ghost predicate LineShape(line: string, key: string, ws: string, value: string) {
    && line == key + ":" + ws + value
    && '\n' !in line
    && ':' !in key
    && AllBlank(ws)
    && (value == [] || !IsBlank(value[0]))
  }

  /** The (key, value) pair the line pattern captures; None when it does not match.
      Without the `s` flag `.` stops at a newline and `$` is the end of the text,
      so a string holding a newline never matches. The scanner's lines hold none. */
  function MatchLine(line: string): (r: Option<(string, string)>)
    ensures r.None? <==> ':' !in line || '\n' in line
  {
    if '\n' in line then None else
    match IndexOf(line, ':')
    case None => None
    case Some(i) =>
      var rest := line[i + 1..];
      Some((line[..i], rest[BlankRun(rest)..]))
  }

  /** A line cut at the colon at `i` and `n` characters after it is the four pieces in order. */
  lemma LinePieces(line: string, i: nat, n: nat)
    requires i + 1 + n <= |line| && line[i] == ':'
    ensures line == line[..i] + ":" + line[i + 1..][..n] + line[i + 1..][n..]
  {
    var rest := line[i + 1..];
    assert rest == rest[..n] + rest[n..];
    assert line == line[..i] + [line[i]] + rest;
  }

  lemma MatchLineSound(line: string)
    requires MatchLine(line).Some?
    ensures exists ws :: LineShape(line, MatchLine(line).value.0, ws, MatchLine(line).value.1)
  {
    var i := IndexOf(line, ':').value;
    var rest := line[i + 1..];
    var n := BlankRun(rest);
    LinePieces(line, i, n);
    assert LineShape(line, line[..i], rest[..n], rest[n..]);
  }

  lemma MatchLineComplete(line: string, key: string, ws: string, value: string)
    requires LineShape(line, key, ws, value)
    ensures MatchLine(line) == Some((key, value))
  {
    assert line[|key|] == ':';
    assert line[..|key|] == key;
    var i := IndexOf(line, ':').value;
    if i < |key| { assert false; }
    if i > |key| { assert false; }
    var rest := line[i + 1..];
    assert rest == ws + value;
    var n := BlankRun(rest);
    assert |ws| < |rest| ==> rest[|ws|] == value[0];
    if n < |ws| { assert false; }
    if n > |ws| { assert false; }
    assert rest[n..] == value;
  }

  /** The line pattern captures (key, value) exactly when the line has that shape. */
  lemma MatchLineIff(line: string, key: string, value: string)
    ensures MatchLine(line) == Some((key, value)) <==> exists ws :: LineShape(line, key, ws, value)
  {
    if MatchLine(line) == Some((key, value)) {
      MatchLineSound(line);
    }
    if ws :| LineShape(line, key, ws, value) {
      MatchLineComplete(line, key, ws, value);
    }
  }

  // ---------------------------------------------------------------------
  // `^Page[\t ]*?(\d+)[\t ](.*)$`: the key of a page line.
  // ---------------------------------------------------------------------

  /** `key` reads as `Page`, the blanks `ws`, the page number `num`, one blank
      separator `sep`, then the attribute name `attr`. */
  ghost predicate PageKeyShape(key: string, ws: string, num: string, sep: char, attr: string) {
    && key == "Page" + ws + num + [sep] + attr
    && '\n' !in key
    && AllBlank(ws)
    && num != []
    && AllDigits(num)
    && IsBlank(sep)
  }

  /** The (page number, attribute) pair the page-key pattern captures; None when
      it does not match, as for a key holding a newline. */
  function MatchPageKey(key: string): (r: Option<(string, string)>)
    ensures r.Some? ==> r.value.0 != [] && AllDigits(r.value.0)
    ensures '\n' in key ==> r.None?
  {
    if !("Page" <= key) || '\n' in key then None
    else
      var rest := key[4..];
      var afterWs := rest[BlankRun(rest)..];
      var d := DigitRun(afterWs);
      if d == 0 || d == |afterWs| || !IsBlank(afterWs[d]) then None
      else Some((afterWs[..d], afterWs[d + 1..]))
  }

  lemma KeyParts(key: string, b: nat, d: nat)
    requires "Page" <= key && 4 + b + d < |key|
    ensures key == "Page" + key[4..][..b] + key[4..][b..][..d] + [key[4..][b..][d]] + key[4..][b..][d + 1..]
  {
    var rest := key[4..];
    var afterWs := rest[b..];
    var p1 := "Page" + rest[..b];
    assert p1 == key[..4 + b];
    var p2 := p1 + afterWs[..d];
    assert p2 == key[..4 + b + d];
    var p3 := p2 + [afterWs[d]];
    assert p3 == key[..4 + b + d + 1];
    assert afterWs[d + 1..] == key[4 + b + d + 1..];
    assert key == p3 + afterWs[d + 1..];
  }

  lemma MatchPageKeySound(key: string)
    requires MatchPageKey(key).Some?
    ensures exists ws, sep :: PageKeyShape(key, ws, MatchPageKey(key).value.0, sep, MatchPageKey(key).value.1)
  {
    var rest := key[4..];
    var b := BlankRun(rest);
    var afterWs := rest[b..];
    var d := DigitRun(afterWs);
    var ws, num, sep, attr := rest[..b], afterWs[..d], afterWs[d], afterWs[d + 1..];
    KeyParts(key, b, d);
    assert PageKeyShape(key, ws, num, sep, attr);
  }

  lemma MatchPageKeyComplete(key: string, ws: string, num: string, sep: char, attr: string)
    requires PageKeyShape(key, ws, num, sep, attr)
    ensures MatchPageKey(key) == Some((num, attr))
  {
    assert key[..4] == "Page";
    var rest := key[4..];
    assert rest == ws + num + [sep] + attr;
    var b := BlankRun(rest);
    assert rest[|ws|] == num[0];
    if b < |ws| { assert false; }
    if b > |ws| { assert false; }
    var afterWs := rest[b..];
    assert afterWs == num + [sep] + attr;
    var d := DigitRun(afterWs);
    assert afterWs[|num|] == sep;
    if d < |num| { assert false; }
    if d > |num| { assert false; }
    assert afterWs[..d] == num;
    assert afterWs[d + 1..] == attr;
  }

  /** The page-key pattern captures (num, attr) exactly when the key has that shape. */
  lemma MatchPageKeyIff(key: string, num: string, attr: string)
    ensures MatchPageKey(key) == Some((num, attr)) <==> exists ws, sep :: PageKeyShape(key, ws, num, sep, attr)
  {
    if MatchPageKey(key) == Some((num, attr)) {
      MatchPageKeySound(key);
    }
    if ws, sep :| PageKeyShape(key, ws, num, sep, attr) {
      MatchPageKeyComplete(key, ws, num, sep, attr);
    }
  }

  // ---------------------------------------------------------------------
  // `^(.*) x (.*) (pts) ?(.*)$`: the value of a page's `size` attribute.
  // ---------------------------------------------------------------------

  /** The four groups of the size pattern, as text. */
  datatype SizeText = SizeText(width: string, height: string, unit: string, note: string)

  /** `raw` reads as width, ` x `, height, ` pts`, an optional space `sp`, then
      the note, and holds no newline: `.` does not match one, and `$` is the
      end of the text. */
  ghost predicate SizeShape(raw: string, w: string, h: string, sp: string, note: string) {
    && raw == w + " x " + h + " pts" + sp + note
    && (sp == "" || sp == " ")
    && '\n' !in raw
  }

  /** The groups the size pattern captures; None when it does not match. The
      width runs to the last ` x ` that still has a ` pts` after it, the height
      to the last ` pts`, and one space after `pts` is dropped if present. A
      value holding a newline never matches. */
  function MatchSize(raw: string): (r: Option<SizeText>)
    ensures r.Some? ==> r.value.unit == "pts"
    ensures '\n' in raw ==> r.None?
  {
    if '\n' in raw then None
    else
      match LastOccurrence(raw, " pts")
      case None => None
      case Some(p) =>
        match LastOccurrence(raw[..p], " x ")
        case None => None
        case Some(i) => Some(SizeGroups(raw, i, p))
  }

  /** The groups once the ` x ` at `i` and the ` pts` at `p` are fixed: one
      space right after `pts` is not part of the note. */
  function SizeGroups(raw: string, i: nat, p: nat): SizeText
    requires i + 3 <= p && p + 4 <= |raw|
  {
    var tail := raw[p + 4..];
    var note := if tail != [] && tail[0] == ' ' then tail[1..] else tail;
    SizeText(raw[..i], raw[i + 3..p], "pts", note)
  }

  /** A value cut at a ` x ` at `i` and a ` pts` at `p`, whose rest is `sp`
      then `note`, is the six pieces in order. */
  lemma SizePieces(raw: string, i: nat, p: nat, sp: string, note: string)
    requires i + 3 <= p && p + 4 <= |raw|
    requires raw[i..i + 3] == " x " && raw[p..p + 4] == " pts" && raw[p + 4..] == sp + note
    ensures raw == raw[..i] + " x " + raw[i + 3..p] + " pts" + sp + note
  {
    var front, back := raw[..p], raw[p..];
    assert raw == front + back;
    assert back == raw[p..p + 4] + (sp + note);
    assert front == raw[..i] + raw[i..i + 3] + raw[i + 3..p];
  }

  lemma MatchSizeSound(raw: string)
    requires MatchSize(raw).Some?
    ensures exists sp :: SizeShape(raw, MatchSize(raw).value.width, MatchSize(raw).value.height, sp, MatchSize(raw).value.note)
  {
    var p := LastOccurrence(raw, " pts").value;
    var i := LastOccurrence(raw[..p], " x ").value;
    assert raw[..p][i..i + 3] == raw[i..i + 3];
    var tail := raw[p + 4..];
    var t := MatchSize(raw).value;
    assert t.width == raw[..i] && t.height == raw[i + 3..p];
    var sp := if tail != [] && tail[0] == ' ' then " " else "";
    assert tail == sp + t.note;
    SizePieces(raw, i, p, sp, t.note);
    assert SizeShape(raw, t.width, t.height, sp, t.note);
  }

  /** Whenever the size pattern can match, MatchSize finds the match RE2
      prefers: the longest width, then the longest height, then the optional
      space taken (which leaves the shortest note). */
  lemma MatchSizeLeftmostFirst(raw: string, w: string, h: string, sp: string, note: string)
    requires SizeShape(raw, w, h, sp, note)
    ensures MatchSize(raw).Some?
    ensures var t := MatchSize(raw).value;
      || |w| < |t.width|
      || (|w| == |t.width| && |h| < |t.height|)
      || (|w| == |t.width| && |h| == |t.height| && |t.note| <= |note|)
  {
    var a, b := |w|, |w| + 3 + |h|;
    SizeShapeSlices(raw, w, h, sp, note);
    var p := LastOccurrence(raw, " pts").value;
    OccursInSlice(raw, " x ", 0, p, a);
    var i := LastOccurrence(raw[..p], " x ").value;
    MatchSizeAt(raw, i, p);
  }

  /** A size decomposition splits at the ` pts` after the height. */
  lemma SizeShapeHalves(raw: string, w: string, h: string, sp: string, note: string)
    requires SizeShape(raw, w, h, sp, note)
    ensures var b := |w| + 3 + |h|;
      b <= |raw| && raw[..b] == w + " x " + h && raw[b..] == " pts" + sp + note
  {
    var front := w + " x " + h;
    assert raw == front + (" pts" + sp + note);
  }

  /** Where width, ` x ` and height sit in the part before ` pts`. */
  lemma FrontSlices(front: string, w: string, h: string)
    requires front == w + " x " + h
    ensures var a := |w|;
      && front[..a] == w && front[a..a + 3] == " x " && front[a + 3..] == h
      && front[a + 1] == 'x' && front[a + 2..] == " " + h
  {
  }

  /** Where ` pts`, the optional space and the note sit in the rest. */
  lemma BackSlices(back: string, sp: string, note: string)
    requires back == " pts" + sp + note
    ensures |back| >= 4 && back[..4] == " pts" && back[4..] == sp + note
    ensures back[1] == 'p' && back[2] == 't' && back[3] == 's'
  {
    assert back == " pts" + (sp + note);
  }

  /** Where each piece of a size decomposition sits in the value. */
  lemma SizeShapeSlices(raw: string, w: string, h: string, sp: string, note: string)
    requires SizeShape(raw, w, h, sp, note)
    ensures var a, b := |w|, |w| + 3 + |h|;
      && b + 4 <= |raw|
      && raw[..a] == w && raw[a..a + 3] == " x " && raw[a + 3..b] == h
      && raw[a + 1] == 'x' && raw[a + 2..b] == " " + h
      && OccursAt(raw, " pts", b) && raw[b + 1] == 'p' && raw[b + 2] == 't' && raw[b + 3] == 's'
      && raw[b + 4..|raw|] == sp + note
  {
    var a, b := |w|, |w| + 3 + |h|;
    SizeShapeHalves(raw, w, h, sp, note);
    var front, back := raw[..b], raw[b..];
    FrontSlices(front, w, h);
    BackSlices(back, sp, note);
    assert raw[..a] == front[..a];
    assert raw[a..a + 3] == front[a..a + 3];
    assert raw[a + 3..b] == front[a + 3..];
    assert raw[a + 1] == front[a + 1];
    assert raw[a + 2..b] == front[a + 2..];
    assert raw[b..b + 4] == back[..4];
    assert raw[b + 1] == back[1] && raw[b + 2] == back[2] && raw[b + 3] == back[3];
    assert raw[b + 4..|raw|] == back[4..];
  }

  /** With no ` pts` in the note, the last ` pts` is the one after the height. */
  lemma LastPtsAfterHeight(raw: string, w: string, h: string, sp: string, note: string)
    requires SizeShape(raw, w, h, sp, note)
    requires forall k :: !OccursAt(sp + note, " pts", k)
    ensures LastOccurrence(raw, " pts") == Some(|w| + 3 + |h|)
  {
    var b := |w| + 3 + |h|;
    SizeShapeSlices(raw, w, h, sp, note);
    var p := LastOccurrence(raw, " pts").value;
    assert raw[p..p + 4][0] == raw[p] == ' ';
    if p > b + 3 {
      OccursInSlice(raw, " pts", b + 4, |raw|, p);
    }
  }

  /** With no ` x ` in the height, the last ` x ` before the height's ` pts` is the one after the width. */
  lemma LastXAfterWidth(raw: string, w: string, h: string, sp: string, note: string)
    requires SizeShape(raw, w, h, sp, note)
    requires forall k :: !OccursAt(" " + h, " x ", k)
    ensures LastOccurrence(raw[..|w| + 3 + |h|], " x ") == Some(|w|)
  {
    var a, b := |w|, |w| + 3 + |h|;
    SizeShapeSlices(raw, w, h, sp, note);
    OccursInSlice(raw, " x ", 0, b, a);
    var i := LastOccurrence(raw[..b], " x ").value;
    OccursInSlice(raw, " x ", 0, b, i);
    assert raw[i..i + 3][0] == raw[i] == ' ';
    if i > a + 1 {
      OccursInSlice(raw, " x ", a + 2, b, i);
    }
  }

  /** MatchSize's result once both searches are known. */
  lemma MatchSizeAt(raw: string, i: nat, p: nat)
    requires '\n' !in raw
    requires LastOccurrence(raw, " pts") == Some(p) && LastOccurrence(raw[..p], " x ") == Some(i)
    ensures i + 3 <= p && p + 4 <= |raw| && MatchSize(raw) == Some(SizeGroups(raw, i, p))
  {
  }

  /** A value built as width, ` x `, height, ` pts`, optional space, note, where
      the note holds no ` pts`, the height (after the separator's last space)
      holds no ` x `, and the optional space is taken whenever the note could
      start with one, is split by MatchSize into exactly those pieces. */
  lemma MatchSizeExact(raw: string, w: string, h: string, sp: string, note: string)
    requires SizeShape(raw, w, h, sp, note)
    requires forall k :: !OccursAt(sp + note, " pts", k)
    requires forall k :: !OccursAt(" " + h, " x ", k)
    requires sp == " " || note == [] || note[0] != ' '
    ensures MatchSize(raw) == Some(SizeText(w, h, "pts", note))
  {
    var a, b := |w|, |w| + 3 + |h|;
    LastPtsAfterHeight(raw, w, h, sp, note);
    LastXAfterWidth(raw, w, h, sp, note);
    SizeShapeSlices(raw, w, h, sp, note);
    MatchSizeAt(raw, a, b);
    var tail := raw[b + 4..];
    if sp == " " {
      assert tail[0] == ' ' && tail[1..] == note;
    } else {
      assert tail == note;
    }
  }

  /** The size pattern matches exactly when some decomposition exists. */
  lemma MatchSizeNone(raw: string)
    ensures MatchSize(raw).None? <==> forall w, h, sp, note :: !SizeShape(raw, w, h, sp, note)
  {
    if MatchSize(raw).Some? {
      MatchSizeSound(raw);
    }
    if w, h, sp, note :| SizeShape(raw, w, h, sp, note) {
      MatchSizeLeftmostFirst(raw, w, h, sp, note);
    }
  }
}
