/** The chat panel's input handling: trimming, the send gate, the Enter key,
    suggested questions and the 500-character cap. */
module ChatBox {
  import opened Shared
  import opened Records

  const MaxInputLength: nat := 500

  /** How many UTF-16 code units a character takes in a JavaScript string:
      characters beyond the Basic Multilingual Plane are a surrogate pair. */
  function Width(c: char): nat {
    if c as int >= 0x1_0000 then 2 else 1
  }

  /** The JavaScript `length` of `s`: its UTF-16 code units. */
  function CodeUnits(s: string): (n: nat)
    ensures |s| <= n <= 2 * |s|
    decreases |s|
  {
    if s == [] then 0 else CodeUnits(s[..|s| - 1]) + Width(s[|s| - 1])
  }

  /** `maxLength`: the longest prefix of `value` whose length in code units
      is within `max`. A surrogate pair is never split. */
  function CapLength(value: string, max: nat): (r: string)
    ensures IsPrefix(r, value) && CodeUnits(r) <= max
    ensures CodeUnits(value) <= max ==> r == value
    ensures r == value || CodeUnits(value[..|r| + 1]) > max
    decreases |value|
  {
    if CodeUnits(value) <= max then value
    else
      var shorter := value[..|value| - 1];
      var r := CapLength(shorter, max);
      assert IsPrefix(r, value) by {
        assert value[..|r|] == shorter[..|r|];
      }
      assert CodeUnits(value[..|r| + 1]) > max by {
        if r != shorter {
          assert value[..|r| + 1] == shorter[..|r| + 1];
        } else {
          assert value[..|r| + 1] == value;
        }
      }
      r
  }

  /** Text made only of Basic Multilingual Plane characters has one code
      unit per character. */
  lemma {:induction false} BasicPlaneCodeUnits(s: string)
    requires forall i :: 0 <= i < |s| ==> s[i] as int < 0x1_0000
    ensures CodeUnits(s) == |s|
    decreases |s|
  {
    if s != [] {
      BasicPlaneCodeUnits(s[..|s| - 1]);
    }
  }

  /** On such text `maxLength` keeps exactly the first `max` characters. */
  lemma CapOfBasicPlane(value: string, max: nat)
    requires forall i :: 0 <= i < |value| ==> value[i] as int < 0x1_0000
    ensures CapLength(value, max) == if |value| <= max then value else value[..max]
  {
    var r := CapLength(value, max);
    BasicPlaneCodeUnits(value);
    BasicPlaneCodeUnits(r);
    if |value| > max {
      BasicPlaneCodeUnits(value[..|r| + 1]);
    }
  }

  const SuggestedQuestions: seq<string> := [
    "Where exactly should I change the hook?",
    "How can I improve retention in the middle?",
    "What's the best CTA for this video?",
    "Can you explain the loopability issue?"
  ]

  /** The characters `String.prototype.trim` removes: ECMAScript's
      WhiteSpace (tab, vertical tab, form feed, space, no-break space,
      byte-order mark and the other space separators) and its
      LineTerminators (line feed, carriage return, U+2028, U+2029). */
  predicate IsTrimmable(c: char) {
    var k := c as int;
    k == 0x09 || k == 0x0A || k == 0x0B || k == 0x0C || k == 0x0D || k == 0x20
    || k == 0xA0 || k == 0x1680 || (0x2000 <= k <= 0x200A) || k == 0x2028 || k == 0x2029
    || k == 0x202F || k == 0x205F || k == 0x3000 || k == 0xFEFF
  }

  predicate Blank(s: string) {
    forall i :: 0 <= i < |s| ==> IsTrimmable(s[i])
  }

  /** `s` without its leading trimmable characters. */
  function TrimStart(s: string): (r: string)
    ensures |r| <= |s| && r == s[|s| - |r|..]
    ensures Blank(s[..|s| - |r|])
    ensures r == [] || !IsTrimmable(r[0])
  {
    if s != [] && IsTrimmable(s[0]) then
      var r := TrimStart(s[1..]);
      assert s[1..][..|s| - 1 - |r|] == s[1..|s| - |r|];
      r
    else s
  }

  /** `s` without its trailing trimmable characters. */
  function TrimEnd(s: string): (r: string)
    ensures |r| <= |s| && r == s[..|r|]
    ensures Blank(s[|r|..])
    ensures r == [] || !IsTrimmable(Last(r))
  {
    if s != [] && IsTrimmable(Last(s)) then
      var r := TrimEnd(s[..|s| - 1]);
      assert s[..|s| - 1][|r|..] == s[|r|..|s| - 1];
      r
    else s
  }

  /** `String.prototype.trim`. */
  function Trim(s: string): (r: string)
  {
    TrimEnd(TrimStart(s))
  }

  /** The trimmed text is a contiguous run of the input whose ends are not
      trimmable, and everything cut away on either side is trimmable. */
  lemma TrimIsInnerRun(s: string)
    ensures var r := Trim(s);
      exists lo :: 0 <= lo <= |s| - |r| && r == s[lo..lo + |r|]
        && Blank(s[..lo]) && Blank(s[lo + |r|..])
    ensures var r := Trim(s); r == [] || (!IsTrimmable(r[0]) && !IsTrimmable(Last(r)))
  {
    var t := TrimStart(s);
    var r := TrimEnd(t);
    var lo := |s| - |t|;
    assert s[lo..] == t;
    assert r == s[lo..lo + |r|];
    assert s[lo + |r|..] == t[|r|..];
    if r != [] {
      assert r[0] == t[0];
    }
  }

  /** Trimming only ever finds nothing when the input was blank. */
  lemma TrimEmptyIffBlank(s: string)
    ensures Trim(s) == [] <==> Blank(s)
  {
    var t := TrimStart(s);
    var k := |s| - |t|;
    // a blank input leaves nothing for the first kept character
    assert t != [] ==> t[0] == s[k];
    if Trim(s) == [] {
      // everything after the cut is blank, so nothing is left after it
      assert t[0..] == t;
      assert t == [];
      forall i | 0 <= i < |s|
        ensures IsTrimmable(s[i])
      {
        assert s[i] == s[..k][i];
      }
    }
  }

  /** Trimming twice is trimming once. */
  lemma TrimIdempotent(s: string)
    ensures Trim(Trim(s)) == Trim(s)
  {
    var r := Trim(s);
    TrimIsInnerRun(s);
    if r != [] {
      assert TrimStart(r) == r;
      assert TrimEnd(r) == r;
    }
  }

  /** The guard of `handleSend`: something other than whitespace is typed and
      no reply is pending. */
  predicate CanSend(input: string, isLoading: bool) {
    Trim(input) != [] && !isLoading
  }

  /** The send button's `disabled={!input.trim() || isLoading}`, negated. */
  predicate SendButtonEnabled(input: string, isLoading: bool) {
    !(Trim(input) == [] || isLoading)
  }

  /** The button is enabled exactly when pressing it would send, and that is
      exactly when the input is not blank and nothing is loading. */
  lemma SendButtonMatchesGuard(input: string, isLoading: bool)
    ensures SendButtonEnabled(input, isLoading) <==> CanSend(input, isLoading)
    ensures CanSend(input, isLoading) <==> !Blank(input) && !isLoading
  {
    TrimEmptyIffBlank(input);
  }

  /** Suggested questions are offered only while the conversation is empty. */
  function OfferedQuestions(messages: seq<ChatMessage>): (qs: seq<string>)
    ensures messages == [] ==> qs == SuggestedQuestions
    ensures messages != [] ==> qs == []
  {
    if |messages| == 0 then SuggestedQuestions else []
  }

  /** What the chat box does that others can see, in order. */
  datatype BoxEvent = InputSet(value: string) | Sent(message: string)

  class Box {
    var input: string
    /** Every input update and every `onSendMessage` call, in order. */
    var trace: seq<BoxEvent>

    ghost predicate Valid()
      reads this
    {
      CodeUnits(input) <= MaxInputLength
    }

    constructor ()
      ensures Valid() && input == [] && trace == []
    {
      input := [];
      trace := [];
    }

    /** The textarea's `onChange`: `maxLength={500}` keeps the longest
        prefix of what is typed or pasted that fits in 500 UTF-16 code units,
        and a disabled textarea (a reply is pending) takes no input at all. */
    method Edit(value: string, isLoading: bool)
      requires Valid()
      modifies this
      ensures Valid()
      ensures isLoading ==> input == old(input) && trace == old(trace)
      ensures !isLoading ==>
        input == CapLength(value, MaxInputLength)
        && trace == old(trace) + [InputSet(input)]
    {
      if !isLoading {
        input := CapLength(value, MaxInputLength);
        trace := trace + [InputSet(input)];
      }
    }

    /** `handleSend`: when the guard holds, clears the input and then sends
        the trimmed text; otherwise does nothing. */
    method HandleSend(isLoading: bool)
      requires Valid()
      modifies this
      ensures Valid()
      ensures CanSend(old(input), isLoading) ==>
        input == [] && trace == old(trace) + [InputSet([]), Sent(Trim(old(input)))]
      ensures !CanSend(old(input), isLoading) ==> input == old(input) && trace == old(trace)
    {
      var text := Trim(input);
      if text != [] && !isLoading {
        input := [];
        trace := trace + [InputSet([])];
        trace := trace + [Sent(text)];
      }
    }

    /** `handleKeyPress`: Enter without Shift is taken over (its default, a
        new line, is prevented) and sends; every other key is left alone. */
    method HandleKeyPress(key: string, shiftKey: bool, isLoading: bool) returns (prevented: bool)
      requires Valid()
      modifies this
      ensures Valid()
      ensures prevented <==> key == "Enter" && !shiftKey
      ensures prevented && CanSend(old(input), isLoading) ==>
        input == [] && trace == old(trace) + [InputSet([]), Sent(Trim(old(input)))]
      ensures !(prevented && CanSend(old(input), isLoading)) ==> input == old(input) && trace == old(trace)
    {
      prevented := key == "Enter" && !shiftKey;
      if prevented {
        HandleSend(isLoading);
      }
    }

    /** `handleSuggestedQuestion`: shows the question, sends it verbatim
        whether or not a reply is pending, and clears the input. */
    method HandleSuggestedQuestion(question: string)
      modifies this
      ensures Valid()
      ensures input == []
      ensures trace == old(trace) + [InputSet(question), Sent(question), InputSet([])]
    {
      input := question;
      trace := trace + [InputSet(question)];
      trace := trace + [Sent(question)];
      input := [];
      trace := trace + [InputSet([])];
    }
  }
}
