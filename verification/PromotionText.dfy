/**
  The image defaults as text: one declaration per line, `NAME = "value"`, found and
  rewritten by name.  A file is the sequence of its lines.
 */
module PromotionText {
  import opened Options

  predicate IsSpace(c: char) { c == ' ' || c == '\t' || c == '\r' || c == '\U{0b}' || c == '\U{0c}' }

  function SkipSpace(line: string, i: nat): (j: nat)
    requires i <= |line|
    ensures i <= j <= |line|
    ensures forall k | i <= k < j :: IsSpace(line[k])
    ensures j < |line| ==> !IsSpace(line[j])
    decreases |line| - i
  {
    if i < |line| && IsSpace(line[i]) then SkipSpace(line, i + 1) else i
  }

  /** Where the value of the default starts, if the line declares it; the value ends before the last character. */
  function ValueAt(line: string, name: string): (r: Option<nat>)
    ensures r.Some? ==> r.value + 1 < |line| && line[|line| - 1] == '"'
  {
    var i := SkipSpace(line, 0);
    if i + |name| > |line| || line[i..i + |name|] != name then None
    else
      var j := SkipSpace(line, i + |name|);
      if j == |line| || line[j] != '=' then None
      else
        var k := SkipSpace(line, j + 1);
        if k + 2 < |line| && line[k] == '"' && line[|line| - 1] == '"' && '"' !in line[k + 1..|line| - 1]
        then Some(k + 1) else None
  }

  function Value(line: string, name: string): string
    requires ValueAt(line, name).Some?
  {
    line[ValueAt(line, name).value..|line| - 1]
  }

  function Rewrite(line: string, name: string, image: string): string
    requires ValueAt(line, name).Some?
  {
    line[..ValueAt(line, name).value] + image + "\""
  }

  /** Names are identifiers; an image is not empty and holds no quote. */
  predicate Identifier(name: string)
  {
    name != "" && forall k | 0 <= k < |name| :: !IsSpace(name[k]) && name[k] != '=' && name[k] != '"'
  }

  predicate Quotable(image: string) { image != "" && '"' !in image }

  /** The parts of a declaration: the name at `i`, the equals sign at `j`, the opening quote at `k`. */
  ghost predicate Shape(line: string, name: string, i: nat, j: nat, k: nat)
  {
    && i + |name| <= j < k && k + 2 < |line|
    && (forall x | 0 <= x < i :: IsSpace(line[x])) && !IsSpace(line[i]) && line[i..i + |name|] == name
    && (forall x | i + |name| <= x < j :: IsSpace(line[x])) && line[j] == '='
    && (forall x | j < x < k :: IsSpace(line[x])) && line[k] == '"'
    && line[|line| - 1] == '"' && forall x | k < x < |line| - 1 :: line[x] != '"'
  }

  lemma ShapeIsDeclaration(line: string, name: string, i: nat, j: nat, k: nat)
    requires Shape(line, name, i, j, k)
    ensures ValueAt(line, name) == Some(k + 1)
  {
    assert SkipSpace(line, 0) == i;
    assert SkipSpace(line, i + |name|) == j;
    assert SkipSpace(line, j + 1) == k;
  }

  lemma DeclarationHasShape(line: string, name: string) returns (i: nat, j: nat, k: nat)
    requires ValueAt(line, name).Some?
    ensures Shape(line, name, i, j, k) && ValueAt(line, name) == Some(k + 1)
  {
    i := SkipSpace(line, 0);
    j := SkipSpace(line, i + |name|);
    k := SkipSpace(line, j + 1);
    forall x | k < x < |line| - 1 ensures line[x] != '"' { assert line[x] == line[k + 1..|line| - 1][x - k - 1]; }
  }

  /** Rewriting a declaration changes its value and nothing it is found by. */
  lemma RewriteReadsBack(line: string, name: string, image: string)
    requires ValueAt(line, name).Some? && Quotable(image)
    ensures ValueAt(Rewrite(line, name, image), name) == ValueAt(line, name)
    ensures Value(Rewrite(line, name, image), name) == image
  {
    var i, j, k := DeclarationHasShape(line, name);
    var out := Rewrite(line, name, image);
    assert forall x | 0 <= x <= k :: out[x] == line[x];
    assert out[i..i + |name|] == line[i..i + |name|];
    assert Shape(out, name, i, j, k);
    ShapeIsDeclaration(out, name, i, j, k);
    assert out[k + 1..|out| - 1] == image;
  }

  /** A line declares at most one name. */
  lemma DeclaresOne(line: string, a: string, b: string)
    requires Identifier(a) && Identifier(b) && ValueAt(line, a).Some? && ValueAt(line, b).Some?
    ensures a == b
  {
    NotLonger(line, a, b);
    NotLonger(line, b, a);
    var i := SkipSpace(line, 0);
    assert a == line[i..i + |a|] == b;
  }

  lemma NotLonger(line: string, a: string, b: string)
    requires Identifier(a) && Identifier(b) && ValueAt(line, a).Some? && ValueAt(line, b).Some?
    ensures |b| <= |a|
  {
  }

  // ------------------------------------------------------------ files

  /** The lines that declare a name. */
  function Declarations(lines: seq<string>, name: string): (s: set<nat>)
    ensures forall i :: i in s <==> 0 <= i < |lines| && ValueAt(lines[i], name).Some?
  {
    set i | 0 <= i < |lines| && ValueAt(lines[i], name).Some?
  }

  /** The one line that declares a name, if there is exactly one. */
  ghost predicate DeclaredAt(lines: seq<string>, name: string, i: nat) { Declarations(lines, name) == {i} }

  method FindOnly(lines: seq<string>, name: string) returns (r: Option<nat>)
    ensures r.Some? ==> r.value < |lines| && DeclaredAt(lines, name, r.value)
    ensures r.None? ==> forall i :: !DeclaredAt(lines, name, i)
  {
    r := None;
    var n := 0;
    ghost var two: (nat, nat) := (0, 0);
    for i := 0 to |lines|
      invariant n == 0 ==> forall k | 0 <= k < i :: ValueAt(lines[k], name).None?
      invariant n > 0 ==> r.Some? && r.value < i && ValueAt(lines[r.value], name).Some?
      invariant n == 1 ==> forall k | 0 <= k < i && k != r.value :: ValueAt(lines[k], name).None?
      invariant n > 1 ==> two.0 < two.1 < i && ValueAt(lines[two.0], name).Some? && ValueAt(lines[two.1], name).Some?
    {
      if ValueAt(lines[i], name).Some? {
        if n > 0 { two := (r.value, i); } else { r := Some(i); }
        n := n + 1;
      }
    }
    if n == 1 { assert Declarations(lines, name) == {r.value}; }
    else {
      r := None;
      forall i ensures !DeclaredAt(lines, name, i) {
        if n > 1 { assert two.0 in Declarations(lines, name) && two.1 in Declarations(lines, name); }
      }
    }
  }

  /** A default's name and the component whose image it holds. */
  datatype Slot = Slot(name: string, component: string)

  ghost predicate WellNamed(slots: seq<Slot>)
  {
    && (forall k | 0 <= k < |slots| :: Identifier(slots[k].name))
    && (forall j, k | 0 <= j < k < |slots| :: slots[j].name != slots[k].name)
  }

  ghost predicate Once(lines: seq<string>, name: string) { exists i :: DeclaredAt(lines, name, i) }

  ghost predicate EachOnce(slots: seq<Slot>, lines: seq<string>)
  {
    forall k | 0 <= k < |slots| :: Once(lines, slots[k].name)
  }

  /** Exactly one line declares the name, and it holds the image. */
  ghost predicate Reads(lines: seq<string>, name: string, image: string)
  {
    exists i: nat | i < |lines| && ValueAt(lines[i], name).Some? ::
      DeclaredAt(lines, name, i) && Value(lines[i], name) == image
  }

  ghost predicate Supplies(slots: seq<Slot>, images: map<string, string>)
  {
    forall k | 0 <= k < |slots| :: slots[k].component in images && Quotable(images[slots[k].component])
  }

  /** Rewriting one declaration keeps what every other name reads. */
  lemma OthersUndisturbed(lines: seq<string>, at: nat, name: string, image: string, other: string)
    requires Identifier(name) && Identifier(other) && name != other && Quotable(image)
    requires at < |lines| && ValueAt(lines[at], name).Some?
    ensures Declarations(lines[at := Rewrite(lines[at], name, image)], other) == Declarations(lines, other)
  {
    RewriteReadsBack(lines[at], name, image);
    if ValueAt(lines[at], other).Some? { DeclaresOne(lines[at], name, other); }
    if ValueAt(Rewrite(lines[at], name, image), other).Some? {
      DeclaresOne(Rewrite(lines[at], name, image), name, other);
    }
  }

  lemma SelfUndisturbed(lines: seq<string>, at: nat, name: string, image: string)
    requires Quotable(image) && at < |lines| && ValueAt(lines[at], name).Some?
    ensures Declarations(lines[at := Rewrite(lines[at], name, image)], name) == Declarations(lines, name)
  {
    RewriteReadsBack(lines[at], name, image);
  }

  lemma StillReads(lines: seq<string>, at: nat, name: string, image: string, other: string, value: string)
    requires Identifier(name) && Identifier(other) && name != other && Quotable(image)
    requires at < |lines| && ValueAt(lines[at], name).Some? && Reads(lines, other, value)
    ensures Reads(lines[at := Rewrite(lines[at], name, image)], other, value)
  {
    OthersUndisturbed(lines, at, name, image, other);
    var i: nat :| i < |lines| && ValueAt(lines[i], other).Some? && DeclaredAt(lines, other, i) &&
      Value(lines[i], other) == value;
    if i == at { DeclaresOne(lines[i], name, other); }
  }

  lemma NowReads(lines: seq<string>, at: nat, name: string, image: string)
    requires Quotable(image) && at < |lines| && ValueAt(lines[at], name).Some? && DeclaredAt(lines, name, at)
    ensures Reads(lines[at := Rewrite(lines[at], name, image)], name, image)
  {
    SelfUndisturbed(lines, at, name, image);
    RewriteReadsBack(lines[at], name, image);
  }

  ghost predicate SameLines(a: seq<string>, b: seq<string>, name: string)
  {
    Declarations(a, name) == Declarations(b, name)
  }

  lemma SameOnce(a: seq<string>, b: seq<string>, name: string)
    requires SameLines(a, b, name)
    ensures Once(a, name) <==> Once(b, name)
  {
    if i :| DeclaredAt(a, name, i) { assert DeclaredAt(b, name, i); }
    if i :| DeclaredAt(b, name, i) { assert DeclaredAt(a, name, i); }
  }

  ghost predicate Shows(lines: seq<string>, slot: Slot, images: map<string, string>)
  {
    slot.component in images && Reads(lines, slot.name, images[slot.component])
  }

  /** What the loop over the defaults has done after `k` of them. */
  ghost predicate Done(slots: seq<Slot>, lines: seq<string>, images: map<string, string>, out: seq<string>, k: nat)
    requires k <= |slots| && Supplies(slots, images)
  {
    && |out| == |lines|
    && (forall s | 0 <= s < |slots| :: SameLines(out, lines, slots[s].name))
    && (forall s | 0 <= s < k :: Shows(out, slots[s], images))
    && (forall i | 0 <= i < |lines| && out[i] != lines[i] :: RewrittenAs(slots, images, lines[i], out[i]))
    && (forall s | k <= s < |slots| :: Untouched(lines, out, slots[s].name))
  }

  /** Only the value changed: the line is as before up to the opening quote, then a declared component's image. */
  ghost predicate RewrittenAs(slots: seq<Slot>, images: map<string, string>, line: string, now: string)
  {
    exists s | 0 <= s < |slots| :: NewValue(slots[s], images, line, now)
  }

  predicate NewValue(slot: Slot, images: map<string, string>, line: string, now: string)
  {
    && ValueAt(line, slot.name).Some? && slot.component in images
    && now == line[..ValueAt(line, slot.name).value] + images[slot.component] + "\""
  }

  ghost predicate Untouched(lines: seq<string>, out: seq<string>, name: string)
    requires |out| == |lines|
  {
    forall i | 0 <= i < |lines| && ValueAt(lines[i], name).Some? :: out[i] == lines[i]
  }

  lemma DeclarationsKept(slots: seq<Slot>, out: seq<string>, k: nat, at: nat, image: string)
    requires WellNamed(slots) && k < |slots| && Quotable(image)
    requires at < |out| && ValueAt(out[at], slots[k].name).Some?
    ensures forall s | 0 <= s < |slots| ::
              SameLines(out[at := Rewrite(out[at], slots[k].name, image)], out, slots[s].name)
  {
    var name := slots[k].name;
    forall s | 0 <= s < |slots| ensures SameLines(out[at := Rewrite(out[at], name, image)], out, slots[s].name) {
      if s != k {
        OthersUndisturbed(out, at, name, image, slots[s].name);
      } else {
        SelfUndisturbed(out, at, name, image);
      }
    }
  }

  lemma DoneOneMore(slots: seq<Slot>, lines: seq<string>, images: map<string, string>, out: seq<string>, k: nat,
                    at: nat)
    requires WellNamed(slots) && Supplies(slots, images) && k < |slots| && Done(slots, lines, images, out, k)
    requires at < |out| && ValueAt(out[at], slots[k].name).Some? && DeclaredAt(out, slots[k].name, at)
    ensures Done(slots, lines, images, out[at := Rewrite(out[at], slots[k].name, images[slots[k].component])], k + 1)
  {
    var image := images[slots[k].component];
    var next := out[at := Rewrite(out[at], slots[k].name, image)];
    DeclarationsKept(slots, out, k, at, image);
    forall s | 0 <= s < |slots| ensures SameLines(next, lines, slots[s].name) {
      assert SameLines(out, lines, slots[s].name);
    }
    ShowsOneMore(slots, images, out, k, at);
    ChangesDeclared(slots, lines, images, out, k, at);
  }

  lemma ShowsOneMore(slots: seq<Slot>, images: map<string, string>, out: seq<string>, k: nat, at: nat)
    requires WellNamed(slots) && Supplies(slots, images) && k < |slots|
    requires forall s | 0 <= s < k :: Shows(out, slots[s], images)
    requires at < |out| && ValueAt(out[at], slots[k].name).Some? && DeclaredAt(out, slots[k].name, at)
    ensures forall s | 0 <= s <= k ::
              Shows(out[at := Rewrite(out[at], slots[k].name, images[slots[k].component])], slots[s], images)
  {
    var name, image := slots[k].name, images[slots[k].component];
    forall s | 0 <= s <= k ensures Shows(out[at := Rewrite(out[at], name, image)], slots[s], images) {
      if s < k {
        assert Shows(out, slots[s], images);
        StillShows(out, at, name, image, slots[s], images);
      } else { NowReads(out, at, name, image); }
    }
  }

  lemma StillShows(out: seq<string>, at: nat, name: string, image: string, slot: Slot, images: map<string, string>)
    requires Identifier(name) && Identifier(slot.name) && name != slot.name && Quotable(image)
    requires at < |out| && ValueAt(out[at], name).Some? && Shows(out, slot, images)
    ensures Shows(out[at := Rewrite(out[at], name, image)], slot, images)
  {
    StillReads(out, at, name, image, slot.name, images[slot.component]);
  }

  lemma ChangesDeclared(slots: seq<Slot>, lines: seq<string>, images: map<string, string>, out: seq<string>, k: nat,
                        at: nat)
    requires WellNamed(slots) && Supplies(slots, images) && k < |slots| && Done(slots, lines, images, out, k)
    requires at < |out| && ValueAt(out[at], slots[k].name).Some?
    ensures var next := out[at := Rewrite(out[at], slots[k].name, images[slots[k].component])];
            && (forall i | 0 <= i < |lines| && next[i] != lines[i] :: RewrittenAs(slots, images, lines[i], next[i]))
            && (forall s | k < s < |slots| :: Untouched(lines, next, slots[s].name))
  {
    var next := out[at := Rewrite(out[at], slots[k].name, images[slots[k].component])];
    assert at in Declarations(out, slots[k].name) && SameLines(out, lines, slots[k].name);
    assert at in Declarations(lines, slots[k].name) && Untouched(lines, out, slots[k].name);
    assert NewValue(slots[k], images, lines[at], next[at]);
    forall s | k < s < |slots| ensures Untouched(lines, next, slots[s].name) {
      assert Untouched(lines, out, slots[s].name);
      if ValueAt(lines[at], slots[s].name).Some? { DeclaresOne(lines[at], slots[k].name, slots[s].name); }
    }
  }

  lemma DoneMeansOnce(slots: seq<Slot>, lines: seq<string>, images: map<string, string>, out: seq<string>)
    requires Supplies(slots, images) && Done(slots, lines, images, out, |slots|)
    ensures EachOnce(slots, lines)
  {
    forall k | 0 <= k < |slots| ensures Once(lines, slots[k].name) {
      assert Shows(out, slots[k], images) && SameLines(out, lines, slots[k].name);
      SameOnce(out, lines, slots[k].name);
    }
  }

  /** Rewrite every default, or nothing when a default is not declared exactly once. */
  method ReplaceDefaults(slots: seq<Slot>, lines: seq<string>, images: map<string, string>)
    returns (r: Option<seq<string>>)
    requires WellNamed(slots) && Supplies(slots, images)
    ensures r.Some? <==> EachOnce(slots, lines)
    ensures r.Some? ==> |r.value| == |lines|
    ensures r.Some? ==> forall k | 0 <= k < |slots| :: Reads(r.value, slots[k].name, images[slots[k].component])
    ensures r.Some? ==> forall i | 0 <= i < |lines| && r.value[i] != lines[i] ::
                      RewrittenAs(slots, images, lines[i], r.value[i])
  {
    var out := lines;
    for k := 0 to |slots|
      invariant Done(slots, lines, images, out, k)
    {
      var name := slots[k].name;
      var found := FindOnly(out, name);
      if found.None? {
        assert SameLines(out, lines, slots[k].name);
        SameOnce(out, lines, slots[k].name);
        return None;
      }
      assert found.value in Declarations(out, name);
      DoneOneMore(slots, lines, images, out, k, found.value);
      out := out[found.value := Rewrite(out[found.value], name, images[slots[k].component])];
    }
    r := Some(out);
    forall k | 0 <= k < |slots| ensures Reads(out, slots[k].name, images[slots[k].component]) {
      assert Shows(out, slots[k], images);
    }
    DoneMeansOnce(slots, lines, images, out);
  }

  // ------------------------------------------------------------ the six defaults

  const COMPONENTS: seq<Slot> := [
    Slot("DefaultPostgresImage", "pgctld"),
    Slot("DefaultMultiadminImage", "multigres"),
    Slot("DefaultMultiadminWebImage", "multiadmin-web"),
    Slot("DefaultMultiorchImage", "multigres"),
    Slot("DefaultMultipoolerImage", "multigres"),
    Slot("DefaultMultigatewayImage", "multigres")]

  lemma FirstNames()
    ensures Identifier("DefaultPostgresImage") && Identifier("DefaultMultiadminImage") &&
            Identifier("DefaultMultiadminWebImage")
  {}

  lemma LastNames()
    ensures Identifier("DefaultMultiorchImage") && Identifier("DefaultMultipoolerImage") &&
            Identifier("DefaultMultigatewayImage")
  {}

  lemma DistinctNames()
    ensures forall j, k | 0 <= j < k < |COMPONENTS| :: COMPONENTS[j].name != COMPONENTS[k].name
  {
    var s := COMPONENTS;
    assert s[0].name[7] != 'M' == s[1].name[7] == s[2].name[7] == s[3].name[7] == s[4].name[7] == s[5].name[7];
    assert s[1].name[12] == s[2].name[12] == 'a' && s[3].name[12] == 'o' && s[4].name[12] == 'p' &&
           s[5].name[12] == 'g';
    assert s[1].name[17] != s[2].name[17];
  }

  lemma ComponentsWellNamed()
    ensures WellNamed(COMPONENTS)
  {
    FirstNames();
    LastNames();
    DistinctNames();
    assert |COMPONENTS| == 6;
  }
}
