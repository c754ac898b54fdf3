/**
 * The `toast` function of the toast hook: it joins the title and the
 * description that are present and not empty with a newline and hands the
 * message to the notification library, which is modelled as the list of
 * messages shown so far.
 */
module UseToast {
  import opened Wrappers
  import opened JsArray

  /** `Boolean(x)` for an optional string: `undefined` and "" are falsy. */
  predicate Truthy(x: Option<string>) {
    x.Some? && x.value != ""
  }

  /** How `join` turns an element into text: `undefined` becomes "". */
  function JoinText(x: Option<string>): string {
    x.GetOr("")
  }

  /** `parts.join(sep)` */
  function Join(parts: seq<string>, sep: string): string {
    if parts == [] then ""
    else if |parts| == 1 then parts[0]
    else parts[0] + sep + Join(parts[1..], sep)
  }

  /** `[title, description].filter(Boolean).join('\n')`: the parts that are
      present and not empty, newline-separated, title first. */
  function Message(title: Option<string>, description: Option<string>): (m: string)
    ensures Truthy(title) && Truthy(description) ==> m == title.value + "\n" + description.value
    ensures Truthy(title) && !Truthy(description) ==> m == title.value
    ensures !Truthy(title) && Truthy(description) ==> m == description.value
    ensures !Truthy(title) && !Truthy(description) ==> m == ""
  {
    var parts := [title, description];
    assert parts[1..] == [description] && [description][1..] == [];
    var kept := Filter(parts, Truthy);
    assert Filter([description], Truthy) == (if Truthy(description) then [description] else []) + Filter([], Truthy);
    assert kept == (if Truthy(title) then [title] else []) + Filter(parts[1..], Truthy);
    assert kept == (if Truthy(title) then [title] else []) + (if Truthy(description) then [description] else []);
    var texts := Map(kept, JoinText);
    assert |texts| == |kept| && forall i :: 0 <= i < |kept| ==> texts[i] == kept[i].value;
    assert |texts| == 2 ==> texts[1..] == [texts[1]] && Join(texts, "\n") == texts[0] + "\n" + texts[1];
    Join(texts, "\n")
  }

  /** The number of times `c` occurs in `s`. */
  function Count(c: char, s: string): nat {
    if s == [] then 0 else (if s[0] == c then 1 else 0) + Count(c, s[1..])
  }

  lemma {:induction false} CountAppend(c: char, a: string, b: string)
    ensures Count(c, a + b) == Count(c, a) + Count(c, b)
  {
    if a != [] {
      assert (a + b)[0] == a[0];
      assert (a + b)[1..] == a[1..] + b;
      CountAppend(c, a[1..], b);
    } else {
      assert a + b == b;
    }
  }

  /** `c` occurs in `s` exactly when `Count` says so. */
  lemma {:induction false} CountZero(c: char, s: string)
    ensures Count(c, s) == 0 <==> c !in s
  {
    if s != [] {
      CountZero(c, s[1..]);
      assert s == [s[0]] + s[1..];
    }
  }

  /** Joining non-empty, newline-free parts with a newline puts exactly one
      newline between each two neighbours and none at either end. */
  lemma {:induction false} JoinSeparators(parts: seq<string>)
    requires forall i :: 0 <= i < |parts| ==> parts[i] != "" && '\n' !in parts[i]
    ensures Join(parts, "\n") == "" <==> parts == []
    ensures parts != [] ==> Count('\n', Join(parts, "\n")) == |parts| - 1
    ensures parts != [] ==> Join(parts, "\n")[0] == parts[0][0] != '\n'
    ensures parts != [] ==> var m := Join(parts, "\n"); m[|m| - 1] == Last(parts)[|Last(parts)| - 1] != '\n'
  {
    if parts != [] {
      CountZero('\n', parts[0]);
      assert parts[0][0] in parts[0];
      assert Last(parts)[|Last(parts)| - 1] in Last(parts);
    }
    if |parts| > 1 {
      var rest := Join(parts[1..], "\n");
      var m := parts[0] + "\n" + rest;
      assert Join(parts, "\n") == m;
      JoinSeparators(parts[1..]);
      CountAppend('\n', parts[0] + "\n", rest);
      CountAppend('\n', parts[0], "\n");
      assert m[0] == parts[0][0];
      assert m[|m| - 1] == rest[|rest| - 1];
      assert Last(parts[1..]) == Last(parts);
    }
  }

  function Last(parts: seq<string>): string
    requires parts != []
  {
    parts[|parts| - 1]
  }

  /** A toast message never starts or ends with the separator, and holds a
      newline only when both the title and the description are there. */
  lemma MessageSeparators(title: Option<string>, description: Option<string>)
    requires title.Some? ==> '\n' !in title.value
    requires description.Some? ==> '\n' !in description.value
    ensures var m := Message(title, description);
            && Count('\n', m) == (if Truthy(title) && Truthy(description) then 1 else 0)
            && (m == "" <==> !Truthy(title) && !Truthy(description))
            && (m != "" ==> m[0] != '\n' && m[|m| - 1] != '\n')
  {
    var parts := (if Truthy(title) then [title.value] else []) + (if Truthy(description) then [description.value] else []);
    JoinSeparators(parts);
    if Truthy(title) && Truthy(description) {
      assert parts[1..] == [description.value];
    }
  }

  /** The notification library, as the messages it was asked to show. */
  class Toaster {
    var shown: seq<string>

    constructor ()
      ensures shown == []
    {
      shown := [];
    }

    /** `toast({ title, description })` */
    method Toast(title: Option<string>, description: Option<string>)
      modifies this
      ensures shown == old(shown) + [Message(title, description)]
    {
      shown := shown + [Message(title, description)];
    }
  }
}
