/** What the new-article and edit-article forms share: the three required text fields,
  * the tag inputs (a list of slots that can be edited, extended and shortened, never
  * below one slot) and the tags actually submitted from them. */
module ArticleForm {
  import opened JsText

  /** The text fields as react-hook-form hands them to `onSubmit`. */
  datatype FormData = FormData(title: string, description: string, body: string)

  /** The body of `POST /articles` and `PUT /articles/{slug}`. */
  datatype ArticleInput = ArticleInput(title: string, description: string, body: string, tagList: seq<string>)

  /** The `required` rule on all three fields: react-hook-form refuses an empty string
    * (but not one of spaces), and `onSubmit` is not called at all. */
  predicate Filled(d: FormData) {
    d.title != "" && d.description != "" && d.body != ""
  }

  /** `useState(['', ''])`: two empty slots. */
  const InitialSlots: seq<string> := ["", ""]

  /** `newTags[index] = value` on a copy. */
  function Changed(slots: seq<string>, i: nat, v: string): (r: seq<string>)
    requires i < |slots|
    ensures |r| == |slots| && r[i] == v
    ensures forall j :: 0 <= j < |r| && j != i ==> r[j] == slots[j]
  {
    slots[i := v]
  }

  /** `[...tagInputs, '']`. */
  function Appended(slots: seq<string>): (r: seq<string>)
    ensures |r| == |slots| + 1 && r[..|slots|] == slots && r[|slots|] == ""
  {
    slots + [""]
  }

  /** `removeTagInput(index)`: refused at one slot or fewer, otherwise `splice(index, 1)`. */
  function Removed(slots: seq<string>, i: nat): (r: seq<string>)
    requires i < |slots|
    ensures |slots| <= 1 ==> r == slots
    ensures |slots| > 1 ==> |r| == |slots| - 1 && r[..i] == slots[..i] && r[i..] == slots[i + 1..]
    ensures |r| >= 1
  {
    if |slots| <= 1 then slots else slots[..i] + slots[i + 1..]
  }

  /** What the filter keeps of one slot: the slot itself unless it trims to nothing. */
  function Kept(t: string): (r: seq<string>)
    ensures r == [] <==> IsBlank(t)
    ensures r != [] ==> r == [t]
  {
    TrimEmptyIffBlank(t);
    if Trim(t) != "" then [t] else []
  }

  /** `[...tagInputs]`: a fresh array holding the slots. */
  method CopyOf(slots: seq<string>) returns (a: array<string>)
    ensures fresh(a) && a[..] == slots
  {
    a := new string[|slots|](i requires 0 <= i < |slots| => slots[i]);
  }

  /** `newTags.splice(index, 1)` on the copy: the later slots move down one cell in
    * place, and the array's first `Length - 1` cells are the result. */
  method SpliceOne(a: array<string>, i: nat) returns (r: seq<string>)
    requires i < a.Length
    modifies a
    ensures r == old(a[..i]) + old(a[i + 1..])
  {
    var k := i;
    while k + 1 < a.Length
      invariant i <= k < a.Length
      invariant forall j :: 0 <= j < i ==> a[j] == old(a[j])
      invariant forall j :: i <= j < k ==> a[j] == old(a[j + 1])
      invariant forall j :: k <= j < a.Length ==> a[j] == old(a[j])
    {
      a[k] := a[k + 1];
      k := k + 1;
    }
    r := a[..a.Length - 1];
    assert forall j :: 0 <= j < |r| ==> r[j] == (old(a[..i]) + old(a[i + 1..]))[j];
  }

  /** `handleTagChange`'s copy-and-assign, done on an array. */
  method ChangeInPlace(slots: seq<string>, i: nat, v: string) returns (r: seq<string>)
    requires i < |slots|
    ensures r == Changed(slots, i, v)
  {
    var newTags := CopyOf(slots);
    newTags[i] := v;
    r := newTags[..];
  }

  /** `removeTagInput`'s copy-and-splice, done on an array. */
  method RemoveInPlace(slots: seq<string>, i: nat) returns (r: seq<string>)
    requires i < |slots| && |slots| > 1
    ensures r == Removed(slots, i)
  {
    var newTags := CopyOf(slots);
    r := SpliceOne(newTags, i);
  }

  /** `tagInputs.filter(tag => tag.trim() !== '')`. */
  function Submitted(slots: seq<string>): (r: seq<string>)
    ensures |r| <= |slots|
    ensures forall j :: 0 <= j < |r| ==> !IsBlank(r[j])
  {
    if slots == [] then [] else Kept(slots[0]) + Submitted(slots[1..])
  }

  /** `sub` is `s` with some elements left out, the rest in their order. */
  predicate IsSubsequence(sub: seq<string>, s: seq<string>)
    decreases |s|
  {
    if sub == [] then true
    else if s == [] then false
    else if sub[0] == s[0] then IsSubsequence(sub[1..], s[1..])
    else IsSubsequence(sub, s[1..])
  }

  /** The submitted tags keep the slots' order and their untrimmed text. */
  lemma {:induction false} SubmittedKeepsOrder(slots: seq<string>)
    ensures IsSubsequence(Submitted(slots), slots)
  {
    if slots != [] {
      SubmittedKeepsOrder(slots[1..]);
      var rest := Submitted(slots[1..]);
      if !IsBlank(slots[0]) {
        assert ([slots[0]] + rest)[1..] == rest;
      } else if rest != [] {
        // The blank slot is not the first kept one.
        assert Submitted(slots) == rest;
        assert !IsBlank(rest[0]);
      }
    }
  }

  /** Every slot that is not blank is submitted as often as it occurs, and no blank
    * slot is. */
  lemma {:induction false} SubmittedCounts(slots: seq<string>, t: string)
    ensures !IsBlank(t) ==> multiset(Submitted(slots))[t] == multiset(slots)[t]
    ensures IsBlank(t) ==> multiset(Submitted(slots))[t] == 0
  {
    if slots != [] {
      var x, rest := slots[0], slots[1..];
      SubmittedCounts(rest, t);
      assert slots == [x] + rest;
      assert Submitted(slots) == Kept(x) + Submitted(rest);
      assert multiset(Submitted(slots)) == multiset(Kept(x)) + multiset(Submitted(rest));
      assert multiset(slots) == multiset([x]) + multiset(rest);
      if IsBlank(x) {
        assert Kept(x) == [];
      } else {
        assert Kept(x) == [x];
      }
    }
  }

  /** Filtering distributes over concatenation. */
  lemma {:induction false} SubmittedOfConcat(a: seq<string>, b: seq<string>)
    ensures Submitted(a + b) == Submitted(a) + Submitted(b)
  {
    if a == [] {
      assert a + b == b;
    } else {
      var ab := a + b;
      assert ab[0] == a[0];
      assert ab[1..] == a[1..] + b;
      SubmittedOfConcat(a[1..], b);
      assert Submitted(ab) == Kept(a[0]) + Submitted(a[1..] + b);
    }
  }

  /** A new empty slot changes nothing that is submitted. */
  lemma AppendedSubmitsTheSame(slots: seq<string>)
    ensures Submitted(Appended(slots)) == Submitted(slots)
  {
    SubmittedOfConcat(slots, [""]);
    BlankHeadSubmitsNothing("", []);
    assert [""] + [] == [""];
  }

  /** Removing a blank slot changes nothing that is submitted. */
  lemma RemovingBlankSubmitsTheSame(slots: seq<string>, i: nat)
    requires i < |slots| && IsBlank(slots[i])
    ensures Submitted(Removed(slots, i)) == Submitted(slots)
  {
    if |slots| > 1 {
      var front, back := slots[..i], slots[i + 1..];
      var tail := [slots[i]] + back;
      assert slots == front + tail;
      BlankHeadSubmitsNothing(slots[i], back);
      SubmittedOfConcat(front, tail);
      SubmittedOfConcat(front, back);
    }
  }

  /** A blank first slot contributes nothing. */
  lemma BlankHeadSubmitsNothing(x: string, rest: seq<string>)
    requires IsBlank(x)
    ensures Submitted([x] + rest) == Submitted(rest)
  {
    var s := [x] + rest;
    assert s[0] == x && s[1..] == rest;
  }

  /** No slot operation leaves the form without a slot, starting from the initial two. */
  lemma SlotsNeverRunOut(slots: seq<string>, i: nat, v: string)
    requires |slots| >= 1 && i < |slots|
    ensures |InitialSlots| >= 1
    ensures |Changed(slots, i, v)| >= 1 && |Appended(slots)| >= 1 && |Removed(slots, i)| >= 1
  {
  }
}
