/**
 * `update_ts_file` and `create_empty_ts_root`
 * (localization/manage_translations.py): merging the extracted strings
 * into a Qt Linguist catalogue. The element tree is a value here; reading
 * and writing the file are left to the caller.
 */
module TsCatalogue {
  import opened Wrappers
  import opened Sorting

  /** A `<translation>` element: its text (None when empty) and its `type` attribute. */
  datatype TranslationElem = TranslationElem(text: Option<string>, kind: Option<string>)

  /**
   * A `<message>`: the text of its `<source>` (None when there is no such
   * element or it is empty) and its `<translation>`, if any.
   */
  datatype Message = Message(source: Option<string>, translation: Option<TranslationElem>)

  /** A child of a `<context>`: a `<name>` with its text, a `<message>`, or anything else, by tag. */
  datatype Child = Name(text: Option<string>) | MessageNode(message: Message) | OtherChild(tag: string)

  datatype Context = Context(children: seq<Child>)

  /** A child of the `<TS>` root: a `<context>`, or anything else, by tag. */
  datatype Top = ContextNode(context: Context) | OtherTop(tag: string)

  /** The `<TS>` root: its attributes in order, and its children. */
  datatype Ts = Ts(attributes: seq<(string, string)>, children: seq<Top>)

  /** `create_empty_ts_root(lang_code)`. */
  function EmptyTsRoot(langCode: string): Ts {
    Ts([("version", "2.1"), ("language", langCode)], [])
  }

  // ---------------------------------------------------------------------
  // Finding the MainWindow context

  /** `ctx.find('name')`: the first `<name>` child, given by its text. */
  function FirstName(children: seq<Child>): Option<Option<string>> {
    if children == [] then None
    else if children[0].Name? then Some(children[0].text)
    else FirstName(children[1..])
  }

  predicate IsMainWindow(t: Top) {
    t.ContextNode? && FirstName(t.context.children) == Some(Some("MainWindow"))
  }

  /** The first context named MainWindow at index `i` or later. */
  function FindFrom(children: seq<Top>, i: nat): (r: Option<nat>)
    requires i <= |children|
    ensures r.Some? ==> i <= r.value < |children| && IsMainWindow(children[r.value]) &&
                        forall j :: i <= j < r.value ==> !IsMainWindow(children[j])
    ensures r.None? ==> forall j :: i <= j < |children| ==> !IsMainWindow(children[j])
    decreases |children| - i
  {
    if i == |children| then None
    else if IsMainWindow(children[i]) then Some(i)
    else FindFrom(children, i + 1)
  }

  /** The loop of `update_ts_file` that looks for the MainWindow context. */
  method FindMainWindow(children: seq<Top>) returns (index: Option<nat>)
    ensures index == FindFrom(children, 0)
  {
    var i := 0;
    while i < |children|
      invariant 0 <= i <= |children|
      invariant FindFrom(children, 0) == FindFrom(children, i)
    {
      if children[i].ContextNode? {
        var name := FirstName(children[i].context.children);
        if name.Some? && name.value == Some("MainWindow") {
          return Some(i);
        }
      }
      i := i + 1;
    }
    return None;
  }

  // ---------------------------------------------------------------------
  // Rebuilding the messages

  /** The translation kept from a message: a non-empty translation text, or None. */
  function KeptText(m: Message): (r: Option<string>)
    ensures r.Some? ==> r.value != ""
  {
    if m.translation.Some? && m.translation.value.text.Some? && m.translation.value.text.value != ""
    then m.translation.value.text
    else None
  }

  /**
   * `existing_messages`, reduced to the translations: every message with a
   * source text, a later one with the same source replacing an earlier one.
   */
  function Existing(children: seq<Child>): map<string, Option<string>> {
    if children == [] then map[]
    else
      var before := Existing(children[..|children| - 1]);
      var c := children[|children| - 1];
      if c.MessageNode? && c.message.source.Some? then before[c.message.source.value := KeptText(c.message)]
      else before
  }

  /** The translation an extracted string keeps: `existing_messages[string]['translation']` when truthy. */
  function Preserved(s: string, existing: map<string, Option<string>>): (r: Option<string>)
    ensures r.Some? ==> r.value != ""
  {
    if s in existing && existing[s].Some? && existing[s].value != "" then existing[s] else None
  }

  /** The message written for a string: its old translation, or an empty one marked unfinished. */
  function NewMessage(s: string, existing: map<string, Option<string>>): Message {
    var kept := Preserved(s, existing);
    if kept.Some? then Message(Some(s), Some(TranslationElem(kept, None)))
    else Message(Some(s), Some(TranslationElem(None, Some("unfinished"))))
  }

  function NewMessages(strings: seq<string>, existing: map<string, Option<string>>): (r: seq<Child>)
    ensures |r| == |strings| && forall k :: 0 <= k < |r| ==> r[k] == MessageNode(NewMessage(strings[k], existing))
  {
    if strings == [] then []
    else NewMessages(strings[..|strings| - 1], existing) + [MessageNode(NewMessage(strings[|strings| - 1], existing))]
  }

  /** The children of a context once its messages are removed. */
  function NonMessages(children: seq<Child>): (r: seq<Child>)
    ensures forall k :: 0 <= k < |r| ==> !r[k].MessageNode?
  {
    if children == [] then []
    else NonMessages(children[..|children| - 1]) +
         (if children[|children| - 1].MessageNode? then [] else [children[|children| - 1]])
  }

  /** The MainWindow context after the update: its other children, then one message per string, sorted. */
  function UpdatedContext(c: Context, strings: seq<string>): Context {
    Context(NonMessages(c.children) + NewMessages(SortStrings(strings), Existing(c.children)))
  }

  /** The root `update_ts_file` starts from: the parsed file, or a blank one when it is missing or unreadable. */
  function StartRoot(parsed: Option<Ts>, langCode: string): Ts {
    if parsed.Some? then parsed.value else EmptyTsRoot(langCode)
  }

  /** `update_ts_file(ts_path, strings, lang_code)` on the parsed file. */
  function Update(parsed: Option<Ts>, strings: seq<string>, langCode: string): Ts {
    var root := StartRoot(parsed, langCode);
    match FindFrom(root.children, 0)
    case Some(i) =>
      root.(children := root.children[i := ContextNode(UpdatedContext(root.children[i].context, strings))])
    case None =>
      root.(children := root.children + [ContextNode(UpdatedContext(Context([Name(Some("MainWindow"))]), strings))])
  }

  /** `update_ts_file`, loop by loop; `strings` is the extracted set, listed without repeats. */
  method UpdateTsFile(parsed: Option<Ts>, strings: seq<string>, langCode: string) returns (root: Ts)
    requires Distinct(strings)
    ensures root == Update(parsed, strings, langCode)
  {
    root := if parsed.Some? then parsed.value else EmptyTsRoot(langCode);
    var found := FindMainWindow(root.children);
    var context: Context;
    if found.Some? {
      context := root.children[found.value].context;
    } else {
      context := Context([Name(Some("MainWindow"))]);
    }
    var existing := CollectExisting(context.children);
    var children := RemoveMessages(context.children);
    var sorted := SortStrings(strings);
    children := AppendMessages(children, sorted, existing);
    if found.Some? {
      root := root.(children := root.children[found.value := ContextNode(Context(children))]);
    } else {
      root := root.(children := root.children + [ContextNode(Context(children))]);
    }
  }

  /** The loop that fills `existing_messages`. */
  method CollectExisting(children: seq<Child>) returns (existing: map<string, Option<string>>)
    ensures existing == Existing(children)
  {
    existing := map[];
    for i := 0 to |children|
      invariant existing == Existing(children[..i])
    {
      assert children[..i + 1][..i] == children[..i];
      var child := children[i];
      if child.MessageNode? && child.message.source.Some? {
        var translation := child.message.translation;
        existing := existing[child.message.source.value :=
          if translation.Some? && translation.value.text.Some? && translation.value.text.value != ""
          then translation.value.text else None];
      }
    }
    assert children[..|children|] == children;
  }

  /** The loop that removes every message from the context. */
  method RemoveMessages(children: seq<Child>) returns (kept: seq<Child>)
    ensures kept == NonMessages(children)
  {
    kept := [];
    for i := 0 to |children|
      invariant kept == NonMessages(children[..i])
    {
      assert children[..i + 1][..i] == children[..i];
      if !children[i].MessageNode? {
        kept := kept + [children[i]];
      }
    }
    assert children[..|children|] == children;
  }

  /** The loop that adds one message per string. */
  method AppendMessages(children: seq<Child>, sorted: seq<string>, existing: map<string, Option<string>>)
    returns (r: seq<Child>)
    ensures r == children + NewMessages(sorted, existing)
  {
    r := children;
    for i := 0 to |sorted|
      invariant r == children + NewMessages(sorted[..i], existing)
    {
      assert sorted[..i + 1][..i] == sorted[..i];
      var s := sorted[i];
      var message: Message;
      if s in existing && existing[s].Some? && existing[s].value != "" {
        message := Message(Some(s), Some(TranslationElem(existing[s], None)));
      } else {
        message := Message(Some(s), Some(TranslationElem(None, Some("unfinished"))));
      }
      r := r + [MessageNode(message)];
    }
    assert sorted[..|sorted|] == sorted;
  }

  // ---------------------------------------------------------------------
  // What an update guarantees

  /** Removing the messages keeps the other children in order; appending messages adds none. */
  lemma {:induction false} NonMessagesAppend(xs: seq<Child>, ys: seq<Child>)
    ensures NonMessages(xs + ys) == NonMessages(xs) + NonMessages(ys)
    decreases |ys|
  {
    if ys == [] {
      assert xs + ys == xs;
    } else {
      var init := ys[..|ys| - 1];
      NonMessagesAppend(xs, init);
      assert (xs + ys)[..|xs + ys| - 1] == xs + init;
    }
  }

  lemma {:induction false} NonMessagesOfMessages(ms: seq<Child>)
    requires forall k :: 0 <= k < |ms| ==> ms[k].MessageNode?
    ensures NonMessages(ms) == []
  {
    if ms != [] {
      NonMessagesOfMessages(ms[..|ms| - 1]);
    }
  }

  lemma {:induction false} NonMessagesIdempotent(xs: seq<Child>)
    ensures NonMessages(NonMessages(xs)) == NonMessages(xs)
  {
    if xs != [] {
      var init := xs[..|xs| - 1];
      NonMessagesIdempotent(init);
      var last := if xs[|xs| - 1].MessageNode? then [] else [xs[|xs| - 1]];
      NonMessagesAppend(NonMessages(init), last);
    }
  }

  lemma {:induction false} FirstNameAppend(xs: seq<Child>, ys: seq<Child>)
    ensures FirstName(xs + ys) == if FirstName(xs).Some? then FirstName(xs) else FirstName(ys)
  {
    if xs == [] {
      assert xs + ys == ys;
    } else {
      assert (xs + ys)[0] == xs[0];
      if !xs[0].Name? {
        FirstNameAppend(xs[1..], ys);
        assert (xs + ys)[1..] == xs[1..] + ys;
      }
    }
  }

  lemma {:induction false} FirstNameOfMessages(ms: seq<Child>)
    requires forall k :: 0 <= k < |ms| ==> ms[k].MessageNode?
    ensures FirstName(ms) == None
  {
    if ms != [] {
      FirstNameOfMessages(ms[1..]);
    }
  }

  lemma {:induction false} FirstNameOfNonMessages(xs: seq<Child>)
    ensures FirstName(NonMessages(xs)) == FirstName(xs)
  {
    if xs != [] {
      var init := xs[..|xs| - 1];
      var last := xs[|xs| - 1];
      FirstNameOfNonMessages(init);
      FirstNameAppend(NonMessages(init), if last.MessageNode? then [] else [last]);
      FirstNameAppend(init, [last]);
      assert xs == init + [last];
      if last.MessageNode? {
        FirstNameOfMessages([last]);
      }
    }
  }

  /** The first name of a context is the same once its messages are removed and new ones added. */
  lemma FirstNameIgnoresMessages(xs: seq<Child>, ms: seq<Child>)
    requires forall k :: 0 <= k < |ms| ==> ms[k].MessageNode?
    ensures FirstName(NonMessages(xs) + ms) == FirstName(xs)
  {
    FirstNameAppend(NonMessages(xs), ms);
    FirstNameOfMessages(ms);
    FirstNameOfNonMessages(xs);
  }

  /** Other children come before messages, so `existing_messages` sees only the messages. */
  lemma {:induction false} ExistingSkipsOthers(xs: seq<Child>, ms: seq<Child>)
    requires forall k :: 0 <= k < |xs| ==> !xs[k].MessageNode?
    ensures Existing(xs + ms) == Existing(ms)
    decreases |ms|
  {
    if ms == [] {
      assert xs + ms == xs;
      ExistingOfOthers(xs);
    } else {
      ExistingSkipsOthers(xs, ms[..|ms| - 1]);
      assert (xs + ms)[..|xs + ms| - 1] == xs + ms[..|ms| - 1];
    }
  }

  lemma {:induction false} ExistingOfOthers(xs: seq<Child>)
    requires forall k :: 0 <= k < |xs| ==> !xs[k].MessageNode?
    ensures Existing(xs) == map[]
  {
    if xs != [] {
      ExistingOfOthers(xs[..|xs| - 1]);
    }
  }

  /** A rebuilt message gives back the translation it was built with. */
  lemma KeptOfNew(s: string, existing: map<string, Option<string>>)
    ensures KeptText(NewMessage(s, existing)) == Preserved(s, existing)
  {
  }

  /** Reading back the rebuilt messages gives every string its preserved translation. */
  lemma {:induction false} ExistingOfNew(strings: seq<string>, existing: map<string, Option<string>>)
    ensures forall s :: s in strings ==> Preserved(s, Existing(NewMessages(strings, existing))) == Preserved(s, existing)
  {
    if strings != [] {
      var init := strings[..|strings| - 1];
      var last := strings[|strings| - 1];
      ExistingOfNew(init, existing);
      var ms := NewMessages(strings, existing);
      assert ms[..|ms| - 1] == NewMessages(init, existing);
      KeptOfNew(last, existing);
      var e := Existing(ms);
      assert e == Existing(NewMessages(init, existing))[last := Preserved(last, existing)];
      forall s | s in strings
        ensures Preserved(s, e) == Preserved(s, existing)
      {
        if s != last {
          assert s in init by {
            var k :| 0 <= k < |strings| && strings[k] == s;
            assert k < |strings| - 1 && init[k] == s;
          }
        }
      }
    }
  }

  /**
   * The message written for a string has that string as its source; a
   * non-empty old translation is kept with no type, anything else gives an
   * empty translation of type "unfinished".
   */
  lemma NewMessageContent(s: string, existing: map<string, Option<string>>)
    ensures NewMessage(s, existing).source == Some(s)
    ensures s in existing && existing[s].Some? && existing[s].value != "" ==>
              NewMessage(s, existing).translation == Some(TranslationElem(existing[s], None))
    ensures !(s in existing && existing[s].Some? && existing[s].value != "") ==>
              NewMessage(s, existing).translation == Some(TranslationElem(None, Some("unfinished")))
  {
  }

  /** From `start` on, `u` holds exactly the messages written for `strings`, in order. */
  predicate WrittenFrom(u: seq<Child>, start: nat, strings: seq<string>, existing: map<string, Option<string>>) {
    |u| == start + |strings| &&
    forall k :: 0 <= k < |strings| ==> u[start + k] == MessageNode(NewMessage(strings[k], existing))
  }

  lemma WrittenAfter(others: seq<Child>, strings: seq<string>, existing: map<string, Option<string>>)
    ensures var u := others + NewMessages(strings, existing);
            u[..|others|] == others && WrittenFrom(u, |others|, strings, existing)
  {
    var ms := NewMessages(strings, existing);
    var u := others + ms;
    forall k | 0 <= k < |strings|
      ensures u[|others| + k] == MessageNode(NewMessage(strings[k], existing))
    {
      assert u[|others| + k] == ms[k];
    }
  }

  /**
   * The MainWindow context after an update: its other children are kept
   * in order, followed by exactly one message per extracted string, in
   * sorted order, each written as `NewMessage` says.
   */
  lemma UpdatedContextMessages(c: Context, strings: seq<string>)
    ensures var u := UpdatedContext(c, strings).children;
            var others := NonMessages(c.children);
            var sorted := SortStrings(strings);
            && SortedStrings(sorted) && multiset(sorted) == multiset(strings) && |sorted| == |strings|
            && u[..|others|] == others
            && WrittenFrom(u, |others|, sorted, Existing(c.children))
  {
    var sorted := SortStrings(strings);
    assert |sorted| == |strings| by {
      assert |multiset(sorted)| == |multiset(strings)|;
    }
    WrittenAfter(NonMessages(c.children), sorted, Existing(c.children));
  }

  /** The rebuilt context is a fixed point: updating it again with the same strings changes nothing. */
  lemma UpdatedContextStable(c: Context, strings: seq<string>)
    ensures UpdatedContext(UpdatedContext(c, strings), strings) == UpdatedContext(c, strings)
  {
    var sorted := SortStrings(strings);
    var existing := Existing(c.children);
    var ms := NewMessages(sorted, existing);
    var others := NonMessages(c.children);
    var u := others + ms;
    NonMessagesAppend(others, ms);
    NonMessagesOfMessages(ms);
    NonMessagesIdempotent(c.children);
    assert NonMessages(u) == others;
    ExistingSkipsOthers(others, ms);
    ExistingOfNew(sorted, existing);
    var again := Existing(u);
    forall s | s in sorted
      ensures NewMessage(s, again) == NewMessage(s, existing)
    {
    }
    assert NewMessages(sorted, again) == ms;
  }

  /**
   * An update always leaves exactly one context it works on: the first
   * MainWindow context of the file, reused in place, or a new one appended
   * when there was none; every other child of the root is left as it was,
   * and the root's attributes are those of the file, or version 2.1 and the
   * language code for a missing or unreadable file.
   */
  lemma UpdateKeepsRoot(parsed: Option<Ts>, strings: seq<string>, langCode: string)
    ensures var root := StartRoot(parsed, langCode);
            var r := Update(parsed, strings, langCode);
            var i := match FindFrom(root.children, 0) case Some(j) => j case None => |root.children|;
            && r.attributes == (if parsed.Some? then parsed.value.attributes else [("version", "2.1"), ("language", langCode)])
            && |r.children| == (if i < |root.children| then |root.children| else |root.children| + 1)
            && (forall j :: 0 <= j < |root.children| && j != i ==> r.children[j] == root.children[j])
            && FindFrom(r.children, 0) == Some(i)
  {
    var root := StartRoot(parsed, langCode);
    var r := Update(parsed, strings, langCode);
    match FindFrom(root.children, 0)
    case Some(i) =>
      var c := root.children[i].context;
      var sorted := SortStrings(strings);
      NewMessagesAreMessages(sorted, Existing(c.children));
      FirstNameIgnoresMessages(c.children, NewMessages(sorted, Existing(c.children)));
      assert IsMainWindow(r.children[i]);
      MainWindowAt(r.children, i);
    case None =>
      var blank := [Name(Some("MainWindow"))];
      var sorted := SortStrings(strings);
      NewMessagesAreMessages(sorted, Existing(blank));
      FirstNameIgnoresMessages(blank, NewMessages(sorted, Existing(blank)));
      assert NonMessages(blank) == blank by {
        assert blank[..0] == [];
      }
      assert IsMainWindow(r.children[|root.children|]);
      MainWindowAt(r.children, |root.children|);
  }

  lemma NewMessagesAreMessages(strings: seq<string>, existing: map<string, Option<string>>)
    ensures forall k :: 0 <= k < |NewMessages(strings, existing)| ==> NewMessages(strings, existing)[k].MessageNode?
  {
  }

  /** The search finds a MainWindow context preceded by none. */
  lemma MainWindowAt(children: seq<Top>, i: nat)
    requires i < |children| && IsMainWindow(children[i])
    requires forall j :: 0 <= j < i ==> !IsMainWindow(children[j])
    ensures FindFrom(children, 0) == Some(i)
  {
  }

  /** Running the update twice with the same strings is running it once. */
  lemma UpdateIdempotent(parsed: Option<Ts>, strings: seq<string>, langCode: string, langCode2: string)
    ensures Update(Some(Update(parsed, strings, langCode)), strings, langCode2) == Update(parsed, strings, langCode)
  {
    var root := StartRoot(parsed, langCode);
    var r := Update(parsed, strings, langCode);
    UpdateKeepsRoot(parsed, strings, langCode);
    match FindFrom(root.children, 0)
    case Some(i) =>
      UpdatedContextStable(root.children[i].context, strings);
      assert r.children[i := ContextNode(UpdatedContext(r.children[i].context, strings))] == r.children;
    case None =>
      var i := |root.children|;
      UpdatedContextStable(Context([Name(Some("MainWindow"))]), strings);
      assert r.children[i := ContextNode(UpdatedContext(r.children[i].context, strings))] == r.children;
  }
}
