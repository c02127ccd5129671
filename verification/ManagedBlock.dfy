/** Replacing the managed block of a source file. */
module ManagedBlock {
  import opened Options

  function Start(): string {
    "// [anito:managed start]"
  }

  function End(): string {
    "// [anito:managed end]"
  }

  lemma Markers()
    ensures |Start()| == 24 && |End()| == 22
    ensures forall i | 0 <= i < |Start()| :: Start()[i] == ']' <==> i == |Start()| - 1
  {
  }

  predicate OccursAt(s: string, t: string, i: nat) {
    i + |t| <= |s| && s[i..i + |t|] == t
  }

  /** strings.Index from position `i` on: the first occurrence, or the length of `s`. */
  function IndexFrom(s: string, t: string, i: nat): (k: nat)
    requires i <= |s| && t != ""
    ensures i <= k <= |s|
    ensures k < |s| ==> OccursAt(s, t, k)
    ensures forall j | i <= j < k :: !OccursAt(s, t, j)
    decreases |s| - i
  {
    if i == |s| || OccursAt(s, t, i) then i else IndexFrom(s, t, i + 1)
  }

  function WithNewline(block: string): string {
    if block != "" && block[|block| - 1] == '\n' then block else block + "\n"
  }

  /** replaceManagedBlock: None if the content has no block. */
  function Replace(content: string, block: string): Option<string> {
    var start := IndexFrom(content, Start(), 0);
    if start == |content| then None
    else
      var last := IndexFrom(content, End(), start);
      if last == |content| then None
      else
        var end := last + |End()|;
        var next := if end < |content| && content[end] == '\n' then end + 1 else end;
        Some(content[..start] + WithNewline(block) + content[next..])
  }

  predicate EndsInNewline(block: string) {
    block != "" && block[|block| - 1] == '\n'
  }

  lemma WithNewlineExact(block: string)
    ensures WithNewline(block) == block + if EndsInNewline(block) then "" else "\n"
  {
    assert block + "" == block;
  }

  ghost predicate FirstAt(s: string, t: string, from: nat, i: nat) {
    from <= i && OccursAt(s, t, i) && forall m: nat | from <= m < i :: !OccursAt(s, t, m)
  }

  /** It fails exactly if there is no start marker with an end marker behind it; otherwise the block goes
      from the first start marker to the first end marker behind it, with the line break after that if
      there is one, and nothing outside it changes. */
  lemma ReplaceExact(content: string, block: string)
    ensures Replace(content, block).None? <==>
              forall i: nat, j: nat | OccursAt(content, "// [anito:managed start]", i) && OccursAt(content, "// [anito:managed end]", j) :: j < i
    ensures Replace(content, block).Some? ==>
              exists i: nat, last: nat ::
                && FirstAt(content, "// [anito:managed start]", 0, i) && FirstAt(content, "// [anito:managed end]", i, last)
                && (var end := last + 22;
                    Replace(content, block).value == content[..i] + (block + if EndsInNewline(block) then "" else "\n")
                                                     + content[if content[end..] != [] && content[end] == '\n' then end + 1 else end..])
  {
    Markers();
    WithNewlineExact(block);
    assert Start() == "// [anito:managed start]" && End() == "// [anito:managed end]";
    hide Start, End, WithNewline, EndsInNewline;
    var start := IndexFrom(content, Start(), 0);
    if start < |content| {
      var last := IndexFrom(content, End(), start);
      if last < |content| {
        assert FirstAt(content, Start(), 0, start) && FirstAt(content, End(), start, last);
      }
    }
  }

  /** A block as the plan generates it: padding, then a body from the start marker to the end marker and a
      line break. */
  ghost predicate Generated(pad: string, body: string) {
    && ']' !in pad
    && |body| > |Start()| + |End()|
    && OccursAt(body, Start(), 0)
    && body[|body| - 1] == '\n'
    && IndexFrom(body, End(), 0) == |body| - 1 - |End()|
  }

  /** Occurrences that lie wholly in the middle of a string are those of the middle. */
  lemma OccursWithin(before: string, s: string, after: string, t: string, i: nat)
    requires i + |t| <= |s|
    ensures OccursAt(before + s + after, t, |before| + i) <==> OccursAt(s, t, i)
  {
    assert (before + s + after)[|before| + i..|before| + i + |t|] == s[i..i + |t|];
  }

  lemma LastCharOccurs(s: string, i: nat)
    requires OccursAt(s, Start(), i)
    ensures forall m | i <= m < i + |Start()| :: s[m] == ']' <==> m == i + |Start()| - 1
  {
    Markers();
    hide Start;
    var w := s[i..i + |Start()|];
    forall m | i <= m < i + |Start()| ensures s[m] == ']' <==> m == i + |Start()| - 1 {
      assert s[m] == w[m - i] == Start()[m - i];
    }
  }

  /** After a replacement the first start marker is the new block's: an earlier one would have its bracket
      in the old text before the block, in the padding, or inside the new marker. */
  lemma NewBlockIsFirst(head: string, pad: string, body: string, rest: string)
    requires Generated(pad, body)
    requires forall j: nat | j + |Start()| <= |head| :: !OccursAt(head, Start(), j)
    ensures IndexFrom(head + pad + body + rest, Start(), 0) == |head| + |pad|
  {
    Markers();
    hide Start, End, IndexFrom;
    var r, k := head + pad + body + rest, |head| + |pad|;
    assert r == (head + pad) + body + rest;
    OccursWithin(head + pad, body, rest, Start(), 0);
    LastCharOccurs(r, k);
    forall j: nat | j < k ensures !OccursAt(r, Start(), j) {
      var m := j + |Start()| - 1;
      if m < |head| {
        assert r == [] + head + (pad + body + rest);
        OccursWithin([], head, pad + body + rest, Start(), j);
      } else {
        assert r[m] != ']' by {
          assert m < k ==> r[m] == pad[m - |head|];
        }
        if OccursAt(r, Start(), j) {
          LastCharOccurs(r, j);
        }
      }
    }
  }

  lemma NewBlockEnds(prefix: string, body: string, rest: string, pad: string)
    requires Generated(pad, body)
    ensures IndexFrom(prefix + body + rest, End(), |prefix|) == |prefix| + |body| - 1 - |End()|
  {
    Markers();
    var r, k := prefix + body + rest, |body| - 1 - |End()|;
    hide Start, End;
    OccursWithin(prefix, body, rest, End(), k);
    forall j: nat | |prefix| <= j < |prefix| + k ensures !OccursAt(r, End(), j) {
      OccursWithin(prefix, body, rest, End(), j - |prefix|);
      assert !OccursAt(body, End(), j - |prefix|);
    }
  }

  lemma ReplaceUnfolds(content: string, block: string, i: nat, last: nat)
    requires i == IndexFrom(content, Start(), 0) < |content| && last == IndexFrom(content, End(), i) < |content|
    ensures var end := last + |End()|;
            var next := if end < |content| && content[end] == '\n' then end + 1 else end;
            end <= next <= |content| && Replace(content, block) == Some(content[..i] + WithNewline(block) + content[next..])
  {
    hide Start, End;
  }

  /** Applying the same generated block a second time adds the padding again. So it changes nothing exactly
      if the block begins with its marker - which the generated one, indented by two spaces, does not. */
  lemma ReplaceTwice(content: string, pad: string, body: string)
    requires Generated(pad, body) && Replace(content, pad + body).Some?
    ensures var once := Replace(content, pad + body).value;
            var twice := Replace(once, pad + body);
            && twice.Some?
            && |twice.value| == |once| + |pad|
            && (twice.value == once <==> pad == "")
  {
    Markers();
    hide Start, End, IndexFrom;
    var block := pad + body;
    var i := IndexFrom(content, Start(), 0);
    var last := IndexFrom(content, End(), i);
    ReplaceUnfolds(content, block, i, last);
    assert WithNewline(block) == block;
    var head, rest :| Replace(content, block).value == head + block + rest && head == content[..i];
    var once := head + pad + body + rest;
    assert head + block + rest == once;
    NoMarkerBefore(content);
    NewBlockIsFirst(head, pad, body, rest);
    SecondTime(head, pad, body, rest);
  }

  lemma NoMarkerBefore(content: string)
    ensures var head := content[..IndexFrom(content, Start(), 0)];
            forall j: nat | j + |Start()| <= |head| :: !OccursAt(head, Start(), j)
  {
    Markers();
    hide Start;
    var i := IndexFrom(content, Start(), 0);
    var head := content[..i];
    forall j: nat | j + |Start()| <= |head| ensures !OccursAt(head, Start(), j) {
      assert content == [] + head + content[i..];
      OccursWithin([], head, content[i..], Start(), j);
    }
  }

  lemma SecondTime(head: string, pad: string, body: string, rest: string)
    requires Generated(pad, body)
    requires IndexFrom(head + pad + body + rest, Start(), 0) == |head| + |pad|
    ensures var once := head + pad + body + rest;
            var twice := Replace(once, pad + body);
            && twice == Some(head + pad + pad + body + rest)
            && (twice.value == once <==> pad == "")
  {
    Markers();
    hide Start, End, IndexFrom;
    var once, prefix := head + pad + body + rest, head + pad;
    NewBlockEnds(prefix, body, rest, pad);
    assert once == prefix + body + rest;
    var last := |prefix| + |body| - 1 - |End()|;
    ReplaceUnfolds(once, pad + body, |prefix|, last);
    assert once[|prefix| + |body| - 1] == body[|body| - 1] == '\n';
    assert once[|prefix| + |body|..] == rest;
    assert once[..|prefix|] == prefix;
    assert WithNewline(pad + body) == pad + body;
    assert prefix + (pad + body) + rest == head + pad + pad + body + rest;
  }
}
