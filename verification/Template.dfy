/** Filling `{slot}` placeholders by repeated first-occurrence replacement. */
module TemplateFilling {
  import opened Strings

  /** A slot name and its candidate values. */
  datatype Slot = Slot(name: string, values: seq<string>)

  /** The random source: its n-th draw picks an index. */
  type Draws = nat -> nat

  predicate NoOpen(s: string) { forall i :: 0 <= i < |s| ==> s[i] != '{' }

  predicate NoClose(s: string) { forall i :: 0 <= i < |s| ==> s[i] != '}' }

  predicate BraceFree(s: string) { NoOpen(s) && NoClose(s) }

  /** The slot table: brace-free distinct names, each with brace-free values to choose from. */
  predicate IsTable(slots: seq<Slot>) {
    (forall i :: 0 <= i < |slots| ==>
       BraceFree(slots[i].name) && slots[i].values != []
       && forall v :: v in slots[i].values ==> BraceFree(v))
    && forall i, j :: 0 <= i < j < |slots| ==> slots[i].name != slots[j].name
  }

  function Token(name: string): string { "{" + name + "}" }

  function Choice(values: seq<string>, draw: nat): string
    requires values != []
  {
    values[draw % |values|]
  }

  function CountOpen(s: string): nat {
    if s == [] then 0 else (if s[0] == '{' then 1 else 0) + CountOpen(s[1..])
  }

  lemma {:induction false} CountConcat(s: string, t: string)
    ensures CountOpen(s + t) == CountOpen(s) + CountOpen(t)
  {
    if s == [] {
      assert s + t == t;
    } else {
      assert (s + t)[1..] == s[1..] + t;
      CountConcat(s[1..], t);
    }
  }

  lemma {:induction false} CountNone(s: string)
    requires NoOpen(s)
    ensures CountOpen(s) == 0
  {
    if s != [] {
      CountNone(s[1..]);
    }
  }

  /** Each replacement removes one opening brace: the reason the loop ends, whatever the text. */
  lemma ReplaceRemovesBrace(s: string, name: string, v: string)
    requires Contains(s, Token(name)) && BraceFree(name) && BraceFree(v)
    ensures CountOpen(ReplaceFirst(s, Token(name), v)) == CountOpen(s) - 1
  {
    hide CountOpen;
    var t := Token(name);
    var i := Find(s, t);
    var l, r := s[..i], s[i + |t|..];
    assert s == l + (t + r);
    CountConcat(l, t + r);
    CountConcat(t, r);
    CountConcat(l, v + r);
    CountConcat(v, r);
    assert l + v + r == l + (v + r);
    CountNone(v);
    TokenCount(name);
  }

  lemma TokenCount(name: string)
    requires BraceFree(name)
    ensures CountOpen(Token(name)) == 1
  {
    assert Token(name)[1..] == name + "}";
    CountNone(name + "}");
  }

  /** One slot's loop, from draw `n` on: the text and the number of draws made so far. */
  function FillSlot(out: string, slot: Slot, draws: Draws, n: nat): (string, nat)
    requires BraceFree(slot.name) && slot.values != [] && forall v :: v in slot.values ==> BraceFree(v)
    decreases CountOpen(out)
  {
    if Contains(out, Token(slot.name)) then
      var v := Choice(slot.values, draws(n));
      ReplaceRemovesBrace(out, slot.name, v);
      FillSlot(ReplaceFirst(out, Token(slot.name), v), slot, draws, n + 1)
    else (out, n)
  }

  /** The slots from number `i` on, in table order. */
  function FillFrom(out: string, slots: seq<Slot>, i: nat, draws: Draws, n: nat): string
    requires IsTable(slots) && i <= |slots|
    decreases |slots| - i
  {
    if i == |slots| then out
    else
      var (next, m) := FillSlot(out, slots[i], draws, n);
      FillFrom(next, slots, i + 1, draws, m)
  }

  method FillTemplate(tpl: string, slots: seq<Slot>, draws: Draws) returns (out: string)
    requires IsTable(slots)
    ensures out == FillFrom(tpl, slots, 0, draws, 0)
  {
    out := tpl;
    var n: nat := 0;
    for i := 0 to |slots|
      invariant FillFrom(out, slots, i, draws, n) == FillFrom(tpl, slots, 0, draws, 0)
    {
      ghost var target := FillSlot(out, slots[i], draws, n);
      while Contains(out, Token(slots[i].name))
        invariant FillSlot(out, slots[i], draws, n) == target
        decreases CountOpen(out)
      {
        var v := Choice(slots[i].values, draws(n));
        ReplaceRemovesBrace(out, slots[i].name, v);
        out := ReplaceFirst(out, Token(slots[i].name), v);
        n := n + 1;
      }
    }
  }
}

/** Templates built from brace-free text and known slots are filled completely, occurrence by occurrence. */
module TemplateProperties {
  import opened Strings
  import opened TemplateFilling

  /** A template as its author wrote it. */
  datatype Segment = Text(text: string) | Hole(slot: nat)

  predicate WellFormed(segs: seq<Segment>, slots: seq<Slot>) {
    forall p :: 0 <= p < |segs| ==>
      match segs[p] case Text(t) => BraceFree(t) case Hole(i) => i < |slots|
  }

  function Piece(seg: Segment, slots: seq<Slot>): string {
    match seg
    case Text(t) => t
    case Hole(i) => if i < |slots| then "{" + slots[i].name + "}" else ""
  }

  function Render(segs: seq<Segment>, slots: seq<Slot>): string {
    if segs == [] then "" else Piece(segs[0], slots) + Render(segs[1..], slots)
  }

  /** The position of the first hole for slot `i`. */
  function FirstHole(segs: seq<Segment>, i: nat): (p: nat)
    ensures p <= |segs| && (p < |segs| ==> segs[p] == Hole(i))
    ensures forall q :: 0 <= q < p ==> segs[q] != Hole(i)
  {
    if segs == [] then 0 else if segs[0] == Hole(i) then 0
    else
      var p := FirstHole(segs[1..], i);
      assert forall q :: 1 <= q < p + 1 ==> segs[q] == segs[1..][q - 1];
      p + 1
  }

  // ---------- where a token occurs in a rendered template ----------

  lemma {:induction false} FindSkipsText(l: string, r: string, name: string)
    requires NoOpen(l)
    ensures Find(l + r, Token(name)) == |l| + Find(r, Token(name))
  {
    if l == [] {
      assert l + r == r;
    } else {
      assert (l + r)[1..] == l[1..] + r;
      assert Token(name)[0] == '{' && (l + r)[0] == l[0];
      FindSkipsText(l[1..], r, name);
    }
  }

  lemma FindAtToken(r: string, name: string)
    ensures Find(Token(name) + r, Token(name)) == 0
  {
  }

  function FirstClose(s: string): nat { if s == [] || s[0] == '}' then 0 else 1 + FirstClose(s[1..]) }

  lemma {:induction false} CloseSkips(l: string, r: string)
    requires NoClose(l)
    ensures FirstClose(l + r) == |l| + FirstClose(r)
  {
    if l == [] {
      assert l + r == r;
    } else {
      assert (l + r)[1..] == l[1..] + r;
      CloseSkips(l[1..], r);
    }
  }

  lemma TokenCloses(a: string, r: string)
    requires NoClose(a)
    ensures FirstClose(Token(a) + r) == |a| + 1
  {
    assert Token(a) + r == ("{" + a) + ("}" + r);
    CloseSkips("{" + a, "}" + r);
  }

  /** Two tokens that both start a text are the same token. */
  lemma TokensAgree(s: string, a: string, b: string)
    requires NoClose(a) && NoClose(b) && Token(a) <= s && Token(b) <= s
    ensures a == b
  {
    assert s == Token(a) + s[|Token(a)|..] && s == Token(b) + s[|Token(b)|..];
    TokenCloses(a, s[|Token(a)|..]);
    TokenCloses(b, s[|Token(b)|..]);
    assert a == s[1..|a| + 1] && b == s[1..|b| + 1];
  }

  lemma FindSkipsToken(r: string, a: string, b: string)
    requires BraceFree(a) && BraceFree(b) && a != b
    ensures Find(Token(a) + r, Token(b)) == |Token(a)| + Find(r, Token(b))
  {
    var s := Token(a) + r;
    if Token(b) <= s {
      TokensAgree(s, a, b);
    }
    assert s[1..] == (a + "}") + r;
    FindSkipsText(a + "}", r, b);
  }

  lemma PieceSkipped(seg: Segment, r: string, slots: seq<Slot>, i: nat)
    requires IsTable(slots) && WellFormed([seg], slots) && i < |slots| && seg != Hole(i)
    ensures Find(Piece(seg, slots) + r, Token(slots[i].name)) == |Piece(seg, slots)| + Find(r, Token(slots[i].name))
  {
    assert [seg][0] == seg;
    match seg
    case Text(t) => FindSkipsText(t, r, slots[i].name);
    case Hole(j) => FindSkipsToken(r, slots[j].name, slots[i].name);
  }

  /** The first occurrence of a slot's token is its first hole; without holes there is none. */
  lemma {:induction false} FindIsFirstHole(segs: seq<Segment>, slots: seq<Slot>, i: nat)
    requires IsTable(slots) && WellFormed(segs, slots) && i < |slots|
    ensures var p := FirstHole(segs, i);
      Find(Render(segs, slots), Token(slots[i].name))
      == |Render(segs[..p], slots)| + (if p < |segs| then 0 else 1)
  {
    hide Find, IsTable;
    var p := FirstHole(segs, i);
    if segs == [] {
      EmptyHasNoToken(slots[i].name);
    } else if segs[0] == Hole(i) {
      FindAtToken(Render(segs[1..], slots), slots[i].name);
    } else {
      assert [segs[0]][0] == segs[0];
      PieceSkipped(segs[0], Render(segs[1..], slots), slots, i);
      FindIsFirstHole(segs[1..], slots, i);
      assert segs[..p][1..] == segs[1..][..p - 1];
    }
  }

  lemma EmptyHasNoToken(name: string)
    ensures Find("", Token(name)) == 1
  {
  }

  lemma {:induction false} RenderConcat(s: seq<Segment>, t: seq<Segment>, slots: seq<Slot>)
    ensures Render(s + t, slots) == Render(s, slots) + Render(t, slots)
  {
    if s == [] {
      assert s + t == t;
    } else {
      assert (s + t)[1..] == s[1..] + t;
      RenderConcat(s[1..], t, slots);
    }
  }

  lemma RenderSplit(segs: seq<Segment>, p: nat, slots: seq<Slot>)
    requires p < |segs|
    ensures Render(segs, slots) == Render(segs[..p], slots) + (Piece(segs[p], slots) + Render(segs[p + 1..], slots))
  {
    assert segs == segs[..p] + segs[p..] && segs[p..][1..] == segs[p + 1..];
    RenderConcat(segs[..p], segs[p..], slots);
  }

  /** Replacing the first occurrence of a token is replacing the first hole by the value. */
  lemma ReplaceIsFillHole(segs: seq<Segment>, slots: seq<Slot>, i: nat, v: string)
    requires IsTable(slots) && WellFormed(segs, slots) && i < |slots|
    ensures var p := FirstHole(segs, i);
      (Contains(Render(segs, slots), Token(slots[i].name)) <==> p < |segs|)
      && (p < |segs| ==>
            ReplaceFirst(Render(segs, slots), Token(slots[i].name), v) == Render(segs[p := Text(v)], slots))
  {
    var p, name := FirstHole(segs, i), slots[i].name;
    FindIsFirstHole(segs, slots, i);
    if p < |segs| {
      var filled := segs[p := Text(v)];
      RenderSplit(segs, p, slots);
      RenderSplit(filled, p, slots);
      assert filled[..p] == segs[..p] && filled[p + 1..] == segs[p + 1..];
      assert Piece(segs[p], slots) == Token(name);
      hide *;
      SpliceOut(Render(segs, slots), Render(segs[..p], slots), name, Render(segs[p + 1..], slots), v);
    } else {
      assert segs[..p] == segs;
    }
  }

  lemma SpliceOut(s: string, l: string, name: string, r: string, v: string)
    requires s == l + (Token(name) + r) && Find(s, Token(name)) == |l|
    ensures Contains(s, Token(name)) && ReplaceFirst(s, Token(name), v) == l + (v + r)
  {
    assert s[|l| + |Token(name)|..] == r;
    assert l + v + r == l + (v + r);
  }

  // ---------- which draw fills which hole ----------

  function CountHoles(segs: seq<Segment>, i: nat): nat {
    if segs == [] then 0 else CountHoles(segs[..|segs| - 1], i) + (if segs[|segs| - 1] == Hole(i) then 1 else 0)
  }

  /** Holes of the slots before number `i`: the draws made before slot `i` is filled. */
  function DrawsBefore(segs: seq<Segment>, i: nat): nat {
    if i == 0 then 0 else DrawsBefore(segs, i - 1) + CountHoles(segs, i - 1)
  }

  /** The value for the hole at `p`: holes draw slot by slot in table order, and left to right within a slot. */
  function ValueAt(segs: seq<Segment>, slots: seq<Slot>, draws: Draws, p: nat): string
    requires IsTable(slots) && WellFormed(segs, slots) && p < |segs| && segs[p].Hole?
  {
    var i := segs[p].slot;
    Choice(slots[i].values, draws(DrawsBefore(segs, i) + CountHoles(segs[..p], i)))
  }

  /** The template with every hole of a slot before `i`, and the first `k` holes of slot `i`, filled. */
  function Progress(segs: seq<Segment>, slots: seq<Slot>, draws: Draws, i: nat, k: nat): (r: seq<Segment>)
    requires IsTable(slots) && WellFormed(segs, slots)
    ensures |r| == |segs|
    ensures forall p :: 0 <= p < |segs| ==> r[p] == Advanced(segs, slots, draws, i, k, p)
  {
    seq(|segs|, p requires 0 <= p < |segs| => Advanced(segs, slots, draws, i, k, p))
  }

  function Advanced(segs: seq<Segment>, slots: seq<Slot>, draws: Draws, i: nat, k: nat, p: nat): Segment
    requires IsTable(slots) && WellFormed(segs, slots) && p < |segs|
  {
    if segs[p].Hole? && (segs[p].slot < i || (segs[p].slot == i && CountHoles(segs[..p], i) < k))
    then Text(ValueAt(segs, slots, draws, p)) else segs[p]
  }

  /** Every hole replaced by its value. */
  function Filled(segs: seq<Segment>, slots: seq<Slot>, draws: Draws): (r: seq<Segment>)
    requires IsTable(slots) && WellFormed(segs, slots)
    ensures |r| == |segs|
  {
    Progress(segs, slots, draws, |slots|, 0)
  }

  lemma ProgressWellFormed(segs: seq<Segment>, slots: seq<Slot>, draws: Draws, i: nat, k: nat)
    requires IsTable(slots) && WellFormed(segs, slots)
    ensures WellFormed(Progress(segs, slots, draws, i, k), slots)
  {
    forall p | 0 <= p < |segs| && segs[p].Hole?
      ensures BraceFree(ValueAt(segs, slots, draws, p))
    {
      ChoiceInValues(slots[segs[p].slot].values,
                     draws(DrawsBefore(segs, segs[p].slot) + CountHoles(segs[..p], segs[p].slot)));
    }
  }

  lemma ChoiceInValues(values: seq<string>, draw: nat)
    requires values != []
    ensures Choice(values, draw) in values
  {
  }

  lemma {:induction false} CountHolesGrows(segs: seq<Segment>, i: nat, p: nat)
    requires p <= |segs|
    ensures CountHoles(segs[..p], i) <= CountHoles(segs, i)
    ensures p < |segs| && segs[p] == Hole(i) ==> CountHoles(segs[..p], i) < CountHoles(segs, i)
    decreases |segs|
  {
    if p == |segs| {
      assert segs[..p] == segs;
    } else {
      var init := segs[..|segs| - 1];
      assert init[..p] == segs[..p];
      CountHolesGrows(init, i, p);
      if p == |segs| - 1 {
        assert init == segs[..p];
      }
    }
  }

  /** With fewer than all holes of slot `i` filled, the first open one is number `k`. */
  lemma {:induction false} FindHoleNumber(segs: seq<Segment>, i: nat, k: nat) returns (p: nat)
    requires k < CountHoles(segs, i)
    ensures p < |segs| && segs[p] == Hole(i) && CountHoles(segs[..p], i) == k
  {
    var n := |segs| - 1;
    if k < CountHoles(segs[..n], i) {
      p := FindHoleNumber(segs[..n], i, k);
      assert segs[..n][..p] == segs[..p];
    } else {
      p := n;
    }
  }

  lemma HolesOrdered(segs: seq<Segment>, i: nat, p: nat, q: nat)
    requires p < q < |segs| && segs[p] == Hole(i)
    ensures CountHoles(segs[..p], i) < CountHoles(segs[..q], i)
  {
    CountHolesGrows(segs[..q], i, p);
    assert segs[..q][..p] == segs[..p];
  }

  lemma NextHole(segs: seq<Segment>, slots: seq<Slot>, draws: Draws, i: nat, k: nat)
    requires IsTable(slots) && WellFormed(segs, slots) && i < |slots|
    ensures var s := Progress(segs, slots, draws, i, k);
      var p := FirstHole(s, i);
      (p < |segs| <==> k < CountHoles(segs, i))
      && (p < |segs| ==>
            s[p := Text(Choice(slots[i].values, draws(DrawsBefore(segs, i) + k)))]
            == Progress(segs, slots, draws, i, k + 1))
  {
    hide IsTable, WellFormed, Choice;
    var s := Progress(segs, slots, draws, i, k);
    var p := FirstHole(s, i);
    if k < CountHoles(segs, i) {
      var h := FindHoleNumber(segs, i, k);
      assert s[h] == Hole(i);
      assert p <= h;
    }
    if p < |segs| {
      assert segs[p] == Hole(i) && CountHoles(segs[..p], i) >= k;
      CountHolesGrows(segs, i, p);
      var h := FindHoleNumber(segs, i, k);
      assert s[h] == Hole(i);
      if p < h {
        HolesOrdered(segs, i, p, h);
      }
      assert p == h;
      OnlyOneHoleChanges(segs, slots, draws, i, k, p);
    }
  }

  lemma OnlyOneHoleChanges(segs: seq<Segment>, slots: seq<Slot>, draws: Draws, i: nat, k: nat, p: nat)
    requires IsTable(slots) && WellFormed(segs, slots) && i < |slots|
    requires p < |segs| && segs[p] == Hole(i) && CountHoles(segs[..p], i) == k
    ensures Progress(segs, slots, draws, i, k)[p := Text(Choice(slots[i].values, draws(DrawsBefore(segs, i) + k)))]
         == Progress(segs, slots, draws, i, k + 1)
  {
    hide IsTable, WellFormed, Choice;
    forall q | 0 <= q < |segs| && q != p
      ensures Advanced(segs, slots, draws, i, k, q) == Advanced(segs, slots, draws, i, k + 1, q)
    {
      if segs[q] == Hole(i) {
        if q < p {
          HolesOrdered(segs, i, q, p);
        } else {
          HolesOrdered(segs, i, p, q);
        }
      }
    }
  }

  /** One slot's loop fills that slot's holes with consecutive draws. */
  lemma {:induction false} SlotLoop(segs: seq<Segment>, slots: seq<Slot>, draws: Draws, i: nat, k: nat)
    requires IsTable(slots) && WellFormed(segs, slots) && i < |slots| && k <= CountHoles(segs, i)
    ensures FillSlot(Render(Progress(segs, slots, draws, i, k), slots), slots[i], draws, DrawsBefore(segs, i) + k)
         == (Render(Progress(segs, slots, draws, i + 1, 0), slots), DrawsBefore(segs, i + 1))
    decreases CountHoles(segs, i) - k
  {
    hide Render, ReplaceFirst, Contains, Choice;
    var s := Progress(segs, slots, draws, i, k);
    var v := Choice(slots[i].values, draws(DrawsBefore(segs, i) + k));
    ProgressWellFormed(segs, slots, draws, i, k);
    NextHole(segs, slots, draws, i, k);
    ReplaceIsFillHole(s, slots, i, v);
    if k < CountHoles(segs, i) {
      SlotLoop(segs, slots, draws, i, k + 1);
    } else {
      SlotDone(segs, slots, draws, i);
    }
  }

  lemma SlotDone(segs: seq<Segment>, slots: seq<Slot>, draws: Draws, i: nat)
    requires IsTable(slots) && WellFormed(segs, slots)
    ensures Progress(segs, slots, draws, i, CountHoles(segs, i)) == Progress(segs, slots, draws, i + 1, 0)
  {
    forall p | 0 <= p < |segs|
      ensures Advanced(segs, slots, draws, i, CountHoles(segs, i), p) == Advanced(segs, slots, draws, i + 1, 0, p)
    {
      CountHolesGrows(segs, i, p);
    }
  }

  lemma {:induction false} AllSlots(segs: seq<Segment>, slots: seq<Slot>, draws: Draws, i: nat)
    requires IsTable(slots) && WellFormed(segs, slots) && i <= |slots|
    ensures FillFrom(Render(Progress(segs, slots, draws, i, 0), slots), slots, i, draws, DrawsBefore(segs, i))
         == Render(Filled(segs, slots, draws), slots)
    decreases |slots| - i
  {
    hide Render, FillSlot;
    if i < |slots| {
      SlotLoop(segs, slots, draws, i, 0);
      AllSlots(segs, slots, draws, i + 1);
    }
  }

  /** Filling a template gives its text with every hole replaced by its own draw. */
  lemma FillsEveryHole(segs: seq<Segment>, slots: seq<Slot>, draws: Draws)
    requires IsTable(slots) && WellFormed(segs, slots)
    ensures FillFrom(Render(segs, slots), slots, 0, draws, 0) == Render(Filled(segs, slots, draws), slots)
  {
    assert Progress(segs, slots, draws, 0, 0) == segs;
    AllSlots(segs, slots, draws, 0);
  }

  lemma {:induction false} TextOnlyIsBraceFree(segs: seq<Segment>, slots: seq<Slot>)
    requires forall p :: 0 <= p < |segs| ==> segs[p].Text? && BraceFree(segs[p].text)
    ensures BraceFree(Render(segs, slots))
  {
    if segs != [] {
      TextOnlyIsBraceFree(segs[1..], slots);
    }
  }

  /** No placeholder, and indeed no brace, is left. */
  lemma NoPlaceholderLeft(segs: seq<Segment>, slots: seq<Slot>, draws: Draws)
    requires IsTable(slots) && WellFormed(segs, slots)
    ensures BraceFree(FillFrom(Render(segs, slots), slots, 0, draws, 0))
  {
    FillsEveryHole(segs, slots, draws);
    ProgressWellFormed(segs, slots, draws, |slots|, 0);
    var f := Filled(segs, slots, draws);
    assert forall p :: 0 <= p < |segs| ==> f[p] == Advanced(segs, slots, draws, |slots|, 0, p);
    TextOnlyIsBraceFree(f, slots);
  }

  lemma HoleIsFilled(segs: seq<Segment>, slots: seq<Slot>, draws: Draws, p: nat)
    requires IsTable(slots) && WellFormed(segs, slots) && p < |segs| && segs[p].Hole?
    ensures Filled(segs, slots, draws)[p] == Text(ValueAt(segs, slots, draws, p))
  {
    hide ValueAt, CountHoles;
    assert Filled(segs, slots, draws)[p] == Advanced(segs, slots, draws, |slots|, 0, p);
  }

  /** The draw that fills the hole at `p`. */
  function DrawOf(segs: seq<Segment>, p: nat): nat
    requires p < |segs| && segs[p].Hole?
  {
    DrawsBefore(segs, segs[p].slot) + CountHoles(segs[..p], segs[p].slot)
  }

  /** Two holes of one slot are filled by different draws, so nothing makes their values agree but the draws. */
  lemma RepeatedSlot(segs: seq<Segment>, slots: seq<Slot>, draws: Draws, p: nat, q: nat)
    requires IsTable(slots) && WellFormed(segs, slots) && p < q < |segs| && segs[p].Hole? && segs[q] == segs[p]
    ensures DrawOf(segs, p) < DrawOf(segs, q)
    ensures draws(DrawOf(segs, p)) == draws(DrawOf(segs, q))
            ==> Filled(segs, slots, draws)[p] == Filled(segs, slots, draws)[q]
  {
    hide IsTable, WellFormed, Choice, Filled, DrawsBefore;
    HolesOrdered(segs, segs[p].slot, p, q);
    HoleIsFilled(segs, slots, draws, p);
    HoleIsFilled(segs, slots, draws, q);
  }

  predicate AllSame(values: seq<string>) {
    forall i, j :: 0 <= i < |values| && 0 <= j < |values| ==> values[i] == values[j]
  }

  /** So two holes of one slot always get the same value exactly when the slot has only one value to give. */
  lemma RepeatedSlotAgreesIff(segs: seq<Segment>, slots: seq<Slot>, p: nat, q: nat)
    requires IsTable(slots) && WellFormed(segs, slots) && p < q < |segs| && segs[p].Hole? && segs[q] == segs[p]
    ensures (forall draws: Draws :: Filled(segs, slots, draws)[p] == Filled(segs, slots, draws)[q])
       <==> AllSame(slots[segs[p].slot].values)
  {
    var values := slots[segs[p].slot].values;
    hide IsTable, WellFormed, Filled;
    if AllSame(values) {
      forall draws: Draws
        ensures Filled(segs, slots, draws)[p] == Filled(segs, slots, draws)[q]
      {
        SameValuesAgree(segs, slots, draws, p, q);
      }
    } else {
      var i, j :| 0 <= i < |values| && 0 <= j < |values| && values[i] != values[j];
      DrawsApart(segs, slots, p, q, i, j);
    }
  }

  lemma SameValuesAgree(segs: seq<Segment>, slots: seq<Slot>, draws: Draws, p: nat, q: nat)
    requires IsTable(slots) && WellFormed(segs, slots) && p < |segs| && q < |segs|
    requires segs[p].Hole? && segs[q] == segs[p]
    requires segs[p].slot < |slots| && AllSame(slots[segs[p].slot].values)
    ensures Filled(segs, slots, draws)[p] == Filled(segs, slots, draws)[q]
  {
    hide Filled, DrawsBefore, CountHoles;
    HoleIsFilled(segs, slots, draws, p);
    HoleIsFilled(segs, slots, draws, q);
  }

  lemma ChoiceInRange(values: seq<string>, i: nat)
    requires i < |values|
    ensures Choice(values, i) == values[i]
  {
  }

  /** Draws that pick value `i` for the hole at `p` and value `j` for every other. */
  lemma DrawsApart(segs: seq<Segment>, slots: seq<Slot>, p: nat, q: nat, i: nat, j: nat)
    requires IsTable(slots) && WellFormed(segs, slots) && p < q < |segs| && segs[p].Hole? && segs[q] == segs[p]
    requires segs[p].slot < |slots|
    requires var values := slots[segs[p].slot].values; i < |values| && j < |values| && values[i] != values[j]
    ensures exists draws: Draws :: Filled(segs, slots, draws)[p] != Filled(segs, slots, draws)[q]
  {
    var first, second := DrawOf(segs, p), DrawOf(segs, q);
    var draws: Draws := n => if n == first then i else j;
    RepeatedSlot(segs, slots, draws, p, q);
    HoleIsFilled(segs, slots, draws, p);
    HoleIsFilled(segs, slots, draws, q);
    ChoiceInRange(slots[segs[p].slot].values, i);
    ChoiceInRange(slots[segs[p].slot].values, j);
    assert draws(first) == i && draws(second) == j;
    hide IsTable, WellFormed, Filled, DrawOf, Choice;
    assert Filled(segs, slots, draws)[p] != Filled(segs, slots, draws)[q];
  }

  lemma RepeatedSlotMayDiffer()
    ensures var slots := [Slot("a", ["x", "y"])];
      var draws: Draws := n => n;
      IsTable(slots) && FillFrom("{a}{a}", slots, 0, draws, 0) == "xy"
  {
    hide Render, Filled, FillFrom, CountHoles, DrawsBefore, Choice;
    var slots := [Slot("a", ["x", "y"])];
    var draws: Draws := n => n;
    var segs := [Hole(0), Hole(0)];
    FillsEveryHole(segs, slots, draws);
    RenderTwo(Hole(0), Hole(0), slots);
    TwoHoleCounts();
    HoleIsFilled(segs, slots, draws, 0);
    HoleIsFilled(segs, slots, draws, 1);
    ChoiceInRange(slots[0].values, 0);
    ChoiceInRange(slots[0].values, 1);
    assert Filled(segs, slots, draws) == [Text("x"), Text("y")];
    RenderTwo(Text("x"), Text("y"), slots);
    assert "x" + "y" == "xy" && Token("a") == "{a}" && "{a}" + "{a}" == "{a}{a}";
  }

  lemma RenderTwo(s: Segment, t: Segment, slots: seq<Slot>)
    ensures Render([s, t], slots) == Piece(s, slots) + Piece(t, slots)
  {
    hide Piece;
    assert [s, t][1..] == [t] && [t][1..] == [];
    assert Render([], slots) == "" && Render([t], slots) == Piece(t, slots) + "";
  }

  lemma TwoHoleCounts()
    ensures var segs := [Hole(0), Hole(0)];
      CountHoles(segs[..0], 0) == 0 && CountHoles(segs[..1], 0) == 1 && DrawsBefore(segs, 0) == 0
  {
    var segs := [Hole(0), Hole(0)];
    assert segs[..1] == [Hole(0)] && [Hole(0)][..0] == [];
  }
}

/** The labelled data set built from templates, and its train/validation split. */
module IntentData {
  import opened Sorting
  import opened Wrappers
  import opened TemplateFilling

  datatype Label = Label(name: string)

  datatype Record = Record(text: string, intent: Label)

  /** Everything random or external: template choice and slot draws for each record, `strip`, and the shuffle. */
  datatype Env = Env(
    pick: nat -> nat, draws: nat -> Draws, strip: string -> string, shuffle: seq<Record> -> seq<Record>)

  ghost predicate Permutes(shuffle: seq<Record> -> seq<Record>) {
    forall s :: multiset(shuffle(s)) == multiset(s)
  }

  // ---------- reference ----------

  function TextFor(templates: seq<string>, slots: seq<Slot>, env: Env, r: nat): string
    requires IsTable(slots) && templates != []
  {
    env.strip(FillFrom(Choice(templates, env.pick(r)), slots, 0, env.draws(r), 0))
  }

  /** `n` records for one label, the first being record number `r` of the run; an empty text is an error. */
  function ForLabel(intent: Label, templates: seq<string>, slots: seq<Slot>, env: Env, r: nat, n: nat)
    : Option<seq<Record>>
    requires IsTable(slots) && templates != []
    decreases n
  {
    if n == 0 then Some([])
    else
      var text, rest := TextFor(templates, slots, env, r), ForLabel(intent, templates, slots, env, r + 1, n - 1);
      if text == "" || rest.None? then None else Some([Record(text, intent)] + rest.value)
  }

  function ForLabels(labels: seq<Label>, templates: Label -> seq<string>, slots: seq<Slot>, env: Env, r: nat, n: nat)
    : Option<seq<Record>>
    requires IsTable(slots)
    decreases |labels|
  {
    if labels == [] then Some([])
    else if templates(labels[0]) == [] then None
    else
      var first := ForLabel(labels[0], templates(labels[0]), slots, env, r, n);
      var rest := ForLabels(labels[1..], templates, slots, env, r + n, n);
      if first.None? || rest.None? then None else Some(first.value + rest.value)
  }

  lemma ForLabelStep(intent: Label, templates: seq<string>, slots: seq<Slot>, env: Env, r: nat, n: nat)
    requires IsTable(slots) && templates != [] && n > 0
    ensures var text := env.strip(FillFrom(Choice(templates, env.pick(r)), slots, 0, env.draws(r), 0));
      var whole := ForLabel(intent, templates, slots, env, r, n);
      var rest := ForLabel(intent, templates, slots, env, r + 1, n - 1);
      whole == if text == "" || rest.None? then None else Some([Record(text, intent)] + rest.value)
  {
    hide FillFrom, Choice;
  }

  lemma NoRecordsWanted(intent: Label, templates: seq<string>, slots: seq<Slot>, env: Env, r: nat)
    requires IsTable(slots) && templates != []
    ensures ForLabel(intent, templates, slots, env, r, 0) == Some([])
  {
  }

  function Times(nPerClass: int): nat { if nPerClass < 0 then 0 else nPerClass }

  function CountLabel(records: seq<Record>, intent: Label): nat {
    if records == [] then 0 else (if records[0].intent == intent then 1 else 0) + CountLabel(records[1..], intent)
  }

  // ---------- the code ----------

  method GenerateDataset(nPerClass: int, labels: seq<Label>, templates: Label -> seq<string>, slots: seq<Slot>,
                         env: Env)
    returns (result: Option<seq<Record>>)
    requires IsTable(slots)
    ensures var made := ForLabels(labels, templates, slots, env, 0, Times(nPerClass));
      if made.None? then result.None? else result == Some(env.shuffle(made.value))
  {
    hide ForLabel;
    var n := Times(nPerClass);
    var records: seq<Record> := [];
    var r: nat := 0;
    assert labels[0..] == labels;
    for l := 0 to |labels|
      invariant var all, rest := ForLabels(labels, templates, slots, env, 0, n),
                                 ForLabels(labels[l..], templates, slots, env, r, n);
        if rest.None? then all.None? else all.Some? && all.value == records + rest.value
    {
      assert labels[l..][0] == labels[l] && labels[l..][1..] == labels[l + 1..];
      var tpls := templates(labels[l]);
      if tpls == [] {
        return None;
      }
      var batch := LabelRecords(labels[l], tpls, slots, env, r, n);
      if batch.None? {
        return None;
      }
      records := records + batch.value;
      r := r + n;
    }
    assert labels[|labels|..] == [] && records + [] == records;
    result := Some(env.shuffle(records));
  }

  method LabelRecords(intent: Label, tpls: seq<string>, slots: seq<Slot>, env: Env, first: nat, n: nat)
    returns (result: Option<seq<Record>>)
    requires IsTable(slots) && tpls != []
    ensures var made := ForLabel(intent, tpls, slots, env, first, n);
      if made.None? then result.None? else result.Some? && result.value == made.value
  {
    hide ForLabel, TextFor;
    var records: seq<Record> := [];
    NoRecordsWanted(intent, tpls, slots, env, first + n);
    for i := 0 to n
      invariant var all, rest := ForLabel(intent, tpls, slots, env, first, n),
                                 ForLabel(intent, tpls, slots, env, first + i, n - i);
        if rest.None? then all.None? else all.Some? && all.value == records + rest.value
    {
      ForLabelStep(intent, tpls, slots, env, first + i, n - i);
      var tpl := Choice(tpls, env.pick(first + i));
      var filled := FillTemplate(tpl, slots, env.draws(first + i));
      var text := env.strip(filled);
      if text == "" {
        return None;
      }
      records := records + [Record(text, intent)];
    }
    assert records + [] == records;
    result := Some(records);
  }

  function Part(n: nat, f: real): real { n as real * f }

  /** `max(1, int(n * f))`, or all `n` when there are fewer. */
  function Cut(n: nat, f: real): nat { Min(n, Max(1, Part(n, f).Floor)) }

  /** The first records of a shuffled copy are the validation part. */
  method SplitDataset(records: seq<Record>, valFrac: real, env: Env)
    returns (result: Option<(seq<Record>, seq<Record>)>)
    requires Permutes(env.shuffle)
    ensures result.None? <==> !(0.0 < valFrac < 1.0)
    ensures result.Some? ==> var (train, val) := result.value;
      multiset(train) + multiset(val) == multiset(records)
      && |val| == Cut(|records|, valFrac) && |train| == |records| - |val|
  {
    if !(0.0 < valFrac < 1.0) {
      return None;
    }
    hide Cut;
    var shuffled := env.shuffle(records);
    SameMultisetSameLength(shuffled, records);
    var cut := Cut(|shuffled|, valFrac);
    CutMeaning(|shuffled|, valFrac);
    var val, train := shuffled[..cut], shuffled[cut..];
    assert shuffled == val + train;
    result := Some((train, val));
  }

  lemma PartIsSmaller(n: nat, f: real)
    requires 0.0 < f < 1.0
    ensures if n == 0 then Part(n, f) == 0.0 else 0.0 < Part(n, f) < n as real
  {
    var x := n as real;
    assert x * (1.0 - f) == x - x * f;
    if n > 0 {
      assert x * f > 0.0 && x * (1.0 - f) > 0.0;
    }
  }

  lemma CutOfPart(n: nat, f: real)
    requires 0.0 < f < 1.0
    ensures Cut(n, f) <= n && (Cut(n, f) > 0 <==> n > 0) && (Cut(n, f) < n <==> n >= 2)
    ensures Part(n, f) >= 1.0 ==> Cut(n, f) as real <= Part(n, f) < Cut(n, f) as real + 1.0
    ensures Part(n, f) < 1.0 ==> Cut(n, f) == if n == 0 then 0 else 1
  {
    PartIsSmaller(n, f);
    hide Part;
    var k := Part(n, f).Floor;
  }

  /** A split has validation records whenever there are records, and training records exactly when there are two; the
      part is the whole number of records in the fraction, or one where that is none. */
  lemma CutMeaning(n: nat, f: real)
    requires 0.0 < f < 1.0
    ensures Cut(n, f) <= n && (Cut(n, f) > 0 <==> n > 0) && (Cut(n, f) < n <==> n >= 2)
    ensures n as real * f >= 1.0 ==> Cut(n, f) as real <= n as real * f < Cut(n, f) as real + 1.0
    ensures n as real * f < 1.0 ==> Cut(n, f) == if n == 0 then 0 else 1
  {
    hide Cut;
    CutOfPart(n, f);
  }

  // ---------- every label gets its share ----------

  lemma {:induction false} CountConcat(s: seq<Record>, t: seq<Record>, intent: Label)
    ensures CountLabel(s + t, intent) == CountLabel(s, intent) + CountLabel(t, intent)
  {
    if s == [] {
      assert s + t == t;
    } else {
      assert (s + t)[1..] == s[1..] + t;
      CountConcat(s[1..], t, intent);
    }
  }

  lemma {:induction false} ForLabelCounts(intent: Label, tpls: seq<string>, slots: seq<Slot>, env: Env, r: nat, n: nat,
                                          other: Label)
    requires IsTable(slots) && tpls != [] && ForLabel(intent, tpls, slots, env, r, n).Some?
    ensures var made := ForLabel(intent, tpls, slots, env, r, n).value;
      |made| == n && CountLabel(made, other) == (if other == intent then n else 0)
      && forall x :: x in made ==> x.text != ""
    decreases n
  {
    hide TextFor;
    if n > 0 {
      ForLabelCounts(intent, tpls, slots, env, r + 1, n - 1, other);
      var rest := ForLabel(intent, tpls, slots, env, r + 1, n - 1).value;
      var text := TextFor(tpls, slots, env, r);
      assert ([Record(text, intent)] + rest)[1..] == rest;
    }
  }

  lemma MulStep(n: nat, k: nat)
    ensures n * (k + 1) == n + n * k
  {
  }

  lemma NoRecords(intent: Label)
    ensures CountLabel([], intent) == 0
  {
  }

  lemma HeadIsNew(labels: seq<Label>, intent: Label)
    requires labels != [] && forall i, j :: 0 <= i < j < |labels| ==> labels[i] != labels[j]
    ensures labels[0] !in labels[1..]
    ensures intent in labels <==> intent == labels[0] || intent in labels[1..]
  {
    assert labels == [labels[0]] + labels[1..];
  }

  lemma {:induction false} ForLabelsCounts(labels: seq<Label>, templates: Label -> seq<string>, slots: seq<Slot>,
                                           env: Env, r: nat, n: nat, intent: Label)
    requires IsTable(slots) && ForLabels(labels, templates, slots, env, r, n).Some?
    requires forall i, j :: 0 <= i < j < |labels| ==> labels[i] != labels[j]
    ensures var made := ForLabels(labels, templates, slots, env, r, n).value;
      |made| == n * |labels| && CountLabel(made, intent) == if intent in labels then n else 0
    decreases |labels|
  {
    hide ForLabel, CountLabel, IsTable;
    if labels == [] {
      NoRecords(intent);
    } else {
      ForLabelCounts(labels[0], templates(labels[0]), slots, env, r, n, intent);
      ForLabelsCounts(labels[1..], templates, slots, env, r + n, n, intent);
      CountConcat(ForLabel(labels[0], templates(labels[0]), slots, env, r, n).value,
                  ForLabels(labels[1..], templates, slots, env, r + n, n).value, intent);
      HeadIsNew(labels, intent);
      MulStep(n, |labels[1..]|);
    }
  }

  lemma CountSplit(t: seq<Record>, j: nat, intent: Label)
    requires j < |t|
    ensures CountLabel(t, intent) == (if t[j].intent == intent then 1 else 0) + CountLabel(t[..j] + t[j + 1..], intent)
  {
    var l, r := t[..j], t[j + 1..];
    assert t == l + ([t[j]] + r);
    CountConcat(l, [t[j]] + r, intent);
    CountConcat(l, r, intent);
    assert ([t[j]] + r)[1..] == r;
  }

  lemma WithoutHead(s: seq<Record>, t: seq<Record>) returns (j: nat, rest: seq<Record>)
    requires multiset(s) == multiset(t) && s != []
    ensures j < |t| && t[j] == s[0] && rest == t[..j] + t[j + 1..] && multiset(s[1..]) == multiset(rest)
  {
    InMultiset(s, t, s[0]);
    j :| 0 <= j < |t| && t[j] == s[0];
    rest := t[..j] + t[j + 1..];
    RemoveAt(s, 0);
    RemoveAt(t, j);
    assert s[..0] + s[1..] == s[1..];
    CancelOne(s[0], multiset(s[1..]), multiset(rest));
  }

  lemma {:induction false} CountIsMultiset(s: seq<Record>, t: seq<Record>, intent: Label)
    requires multiset(s) == multiset(t)
    ensures CountLabel(s, intent) == CountLabel(t, intent)
  {
    SameMultisetSameLength(s, t);
    if s != [] {
      var j, rest := WithoutHead(s, t);
      CountSplit(t, j, intent);
      CountIsMultiset(s[1..], rest, intent);
    }
  }

  /** Whatever the shuffle, the data set has exactly n records for each label and none for any other. */
  lemma DatasetIsBalanced(labels: seq<Label>, templates: Label -> seq<string>, slots: seq<Slot>, env: Env, n: int,
                          intent: Label)
    requires IsTable(slots) && Permutes(env.shuffle)
    requires forall i, j :: 0 <= i < j < |labels| ==> labels[i] != labels[j]
    requires ForLabels(labels, templates, slots, env, 0, Times(n)).Some?
    ensures var data := env.shuffle(ForLabels(labels, templates, slots, env, 0, Times(n)).value);
      CountLabel(data, intent) == if intent in labels && n > 0 then n else 0
  {
    var made := ForLabels(labels, templates, slots, env, 0, Times(n)).value;
    ForLabelsCounts(labels, templates, slots, env, 0, Times(n), intent);
    assert multiset(env.shuffle(made)) == multiset(made);
    CountIsMultiset(env.shuffle(made), made, intent);
  }
}
