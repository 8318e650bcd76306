/**
 * Properties of the per-item output guard over unstructured content: which items are
 * checked and in what order, where the loop stops, and what it leaves unchanged.
 */
module OutputGuardProperties {
  import opened Wrappers
  import opened Json
  import opened Mcp
  import opened Guard
  import opened CallToolPipeline

  /** The decision on the `t`-th text item's checkpoint, from the `t`-th reply. */
  function OutputDecisionAt(replies: seq<Verdict>, t: nat): Decision {
    Decide(ReplyAt(replies, t), OutputFailure)
  }

  /** The number of text items before position `i`: the reply that the item at `i` consumes. */
  function TextsBefore(items: seq<ContentItem>, i: nat): nat
    requires i <= |items|
  {
    |TextItems(items[..i])|
  }

  /** Dropping the first reply shifts every later reply down by one. */
  lemma DecisionShift(replies: seq<Verdict>, t: nat)
    requires replies != []
    ensures OutputDecisionAt(replies[1..], t) == OutputDecisionAt(replies, t + 1)
  {
    assert ReplyAt(replies[1..], t) == ReplyAt(replies, t + 1);
  }

  /** The filter keeps the order of the content: filtering a concatenation concatenates the filtered parts. */
  lemma {:induction false} TextItemsAppend(a: seq<ContentItem>, b: seq<ContentItem>)
    ensures TextItems(a + b) == TextItems(a) + TextItems(b)
  {
    if a == [] {
      assert a + b == b;
    } else {
      assert (a + b)[1..] == a[1..] + b;
      TextItemsAppend(a[1..], b);
    }
  }

  /** The requests for a leading text item, then the rest. */
  lemma OutputRequestsCons(toolName: string, x: ContentItem, rest: seq<ContentItem>)
    ensures OutputRequests(toolName, [x] + rest) == [OutputRequest(toolName, x.text)] + OutputRequests(toolName, rest)
  {
    assert ([x] + rest)[1..] == rest;
  }

  /**
   * The guard calls of the loop are the leading part of one call per text item, in order,
   * and all of them when every item passed; a loop that stopped made at least one call.
   */
  lemma {:induction false} TextRunChecks(codec: Codec, toolName: string, items: seq<ContentItem>, replies: seq<Verdict>)
    ensures var run := GuardTextItems(codec, toolName, items, replies);
      && run.checks <= OutputRequests(toolName, TextItems(items))
      && (run.outcome.Passed? ==>
            run.checks == OutputRequests(toolName, TextItems(items)) && |run.outcome.items| == |items|)
      && (!run.outcome.Passed? ==> run.checks != [])
    decreases |items|
  {
    if items == [] {
      return;
    }
    if !IsText(items[0]) {
      SkipStep(codec, toolName, items, replies);
      TextRunChecks(codec, toolName, items[1..], replies);
    } else {
      OutputRequestsCons(toolName, items[0], TextItems(items[1..]));
      if Continues(OutputDecisionAt(replies, 0)) {
        PassStep(codec, toolName, items, replies);
        TextRunChecks(codec, toolName, items[1..], replies[1..]);
      } else {
        HaltStep(codec, toolName, items, replies);
      }
    }
  }

  /**
   * The loop stops at the first text item whose checkpoint does not let it through: the
   * checkpoint count is that item's text index plus one, and the outcome is its block notice
   * (error-flagged) or its failure.
   */
  lemma {:induction false} TextHaltsAtFirst(codec: Codec, toolName: string, items: seq<ContentItem>, replies: seq<Verdict>, j: nat)
    requires j < |TextItems(items)|
    requires forall t :: 0 <= t < j ==> Continues(OutputDecisionAt(replies, t))
    requires !Continues(OutputDecisionAt(replies, j))
    ensures GuardTextItems(codec, toolName, items, replies)
         == TextRun(Halt(codec, OutputDecisionAt(replies, j)), OutputRequests(toolName, TextItems(items))[..j + 1])
    decreases |items|
  {
    if !IsText(items[0]) {
      SkipStep(codec, toolName, items, replies);
      TextHaltsAtFirst(codec, toolName, items[1..], replies, j);
    } else {
      var texts := TextItems(items[1..]);
      OutputRequestsCons(toolName, items[0], texts);
      if j == 0 {
        HaltStep(codec, toolName, items, replies);
      } else {
        assert Continues(OutputDecisionAt(replies, 0));
        PassStep(codec, toolName, items, replies);
        forall t | 0 <= t < j - 1
          ensures Continues(OutputDecisionAt(replies[1..], t))
        {
          DecisionShift(replies, t);
        }
        DecisionShift(replies, j - 1);
        TextHaltsAtFirst(codec, toolName, items[1..], replies[1..], j - 1);
        assert ([OutputRequest(toolName, items[0].text)] + OutputRequests(toolName, texts))[..j + 1]
            == [OutputRequest(toolName, items[0].text)] + OutputRequests(toolName, texts)[..j];
      }
    }
  }

  /** The loop gets through the whole content exactly when every text item's checkpoint lets it through. */
  lemma {:induction false} TextPassedIff(codec: Codec, toolName: string, items: seq<ContentItem>, replies: seq<Verdict>)
    ensures GuardTextItems(codec, toolName, items, replies).outcome.Passed?
        <==> forall t :: 0 <= t < |TextItems(items)| ==> Continues(OutputDecisionAt(replies, t))
    decreases |items|
  {
    if items == [] {
      return;
    }
    if !IsText(items[0]) {
      SkipStep(codec, toolName, items, replies);
      TextPassedIff(codec, toolName, items[1..], replies);
    } else if Continues(OutputDecisionAt(replies, 0)) {
      PassStep(codec, toolName, items, replies);
      TextPassedIff(codec, toolName, items[1..], replies[1..]);
      forall t | 0 <= t < |TextItems(items[1..])|
        ensures OutputDecisionAt(replies[1..], t) == OutputDecisionAt(replies, t + 1)
      {
        DecisionShift(replies, t);
      }
      var n := |TextItems(items)|;
      if forall t :: 0 <= t < n - 1 ==> Continues(OutputDecisionAt(replies[1..], t)) {
        forall t | 0 <= t < n
          ensures Continues(OutputDecisionAt(replies, t))
        {
          if t > 0 {
            assert Continues(OutputDecisionAt(replies[1..], t - 1));
          }
        }
      }
    } else {
      HaltStep(codec, toolName, items, replies);
    }
  }

  /** The text items before position `i` are those of the first item, then those of the rest before `i - 1`. */
  lemma TextsBeforeTail(items: seq<ContentItem>, i: nat)
    requires 0 < i <= |items|
    ensures TextsBefore(items, i) == (if IsText(items[0]) then 1 else 0) + TextsBefore(items[1..], i - 1)
  {
    assert items[..i][0] == items[0];
    assert items[..i][1..] == items[1..][..i - 1];
  }

  /**
   * The head of a full pass: the first item (rewritten by its verdict when it is a text
   * item) followed by a full pass over the rest, on the replies left after its checkpoint.
   */
  lemma PassedHead(codec: Codec, toolName: string, items: seq<ContentItem>, replies: seq<Verdict>)
    requires items != []
    requires GuardTextItems(codec, toolName, items, replies).outcome.Passed?
    ensures var out := GuardTextItems(codec, toolName, items, replies).outcome.items;
      IsText(items[0]) ==>
        && replies != []
        && Continues(OutputDecisionAt(replies, 0))
        && GuardTextItems(codec, toolName, items[1..], replies[1..]).outcome.Passed?
        && out == [Rewritten(items[0], OutputDecisionAt(replies, 0))]
                  + GuardTextItems(codec, toolName, items[1..], replies[1..]).outcome.items
    ensures var out := GuardTextItems(codec, toolName, items, replies).outcome.items;
      !IsText(items[0]) ==>
        && GuardTextItems(codec, toolName, items[1..], replies).outcome.Passed?
        && out == [items[0]] + GuardTextItems(codec, toolName, items[1..], replies).outcome.items
  {
    if !IsText(items[0]) {
      SkipStep(codec, toolName, items, replies);
    } else if Continues(OutputDecisionAt(replies, 0)) {
      PassStep(codec, toolName, items, replies);
    } else {
      HaltStep(codec, toolName, items, replies);
    }
  }

  /**
   * What a full pass leaves at position `i`: the item unchanged when it is not a text item,
   * and otherwise the item rewritten by the verdict of its own checkpoint, which let it through.
   */
  predicate ItemPassedAt(items: seq<ContentItem>, replies: seq<Verdict>, out: seq<ContentItem>, i: nat)
    requires i < |items| == |out|
  {
    if IsText(items[i])
    then Continues(OutputDecisionAt(replies, TextsBefore(items, i)))
         && out[i] == Rewritten(items[i], OutputDecisionAt(replies, TextsBefore(items, i)))
    else out[i] == items[i]
  }

  /** Position `i - 1` of the rest of a pass is position `i` of the whole, once the head has consumed its reply. */
  lemma ItemPassedShift(items: seq<ContentItem>, replies: seq<Verdict>, head: ContentItem, rest: seq<ContentItem>, i: nat)
    requires 0 < i < |items| && |rest| == |items| - 1
    requires IsText(items[0]) ==> replies != []
    requires ItemPassedAt(items[1..], if IsText(items[0]) then replies[1..] else replies, rest, i - 1)
    ensures ItemPassedAt(items, replies, [head] + rest, i)
  {
    TextsBeforeTail(items, i);
    assert items[i] == items[1..][i - 1];
    assert ([head] + rest)[i] == rest[i - 1];
    if IsText(items[0]) {
      DecisionShift(replies, TextsBefore(items[1..], i - 1));
    }
  }

  /** After a full pass, the item at `i` is as `ItemPassedAt` describes. */
  lemma {:induction false} TextPassedItemAt(codec: Codec, toolName: string, items: seq<ContentItem>,
                                            replies: seq<Verdict>, i: nat)
    requires i < |items|
    requires GuardTextItems(codec, toolName, items, replies).outcome.Passed?
    ensures |GuardTextItems(codec, toolName, items, replies).outcome.items| == |items|
    ensures ItemPassedAt(items, replies, GuardTextItems(codec, toolName, items, replies).outcome.items, i)
    decreases i
  {
    TextRunChecks(codec, toolName, items, replies);
    PassedHead(codec, toolName, items, replies);
    var out := GuardTextItems(codec, toolName, items, replies).outcome.items;
    if i == 0 {
      assert items[..0] == [];
    } else {
      var later := if IsText(items[0]) then replies[1..] else replies;
      var rest := GuardTextItems(codec, toolName, items[1..], later).outcome.items;
      TextPassedItemAt(codec, toolName, items[1..], later, i - 1);
      ItemPassedShift(items, replies, out[0], rest, i);
      assert out == [out[0]] + rest;
    }
  }

  /**
   * When the loop gets through, the content keeps its length and order; a non-text item is
   * unchanged, and a text item keeps its type and other fields and changes its text only
   * where its checkpoint substituted it.
   */
  lemma TextPassedItems(codec: Codec, toolName: string, items: seq<ContentItem>, replies: seq<Verdict>)
    requires GuardTextItems(codec, toolName, items, replies).outcome.Passed?
    ensures var out := GuardTextItems(codec, toolName, items, replies).outcome.items;
      && |out| == |items|
      && forall i :: 0 <= i < |items| ==>
           if IsText(items[i])
           then Continues(OutputDecisionAt(replies, TextsBefore(items, i)))
                && out[i] == Rewritten(items[i], OutputDecisionAt(replies, TextsBefore(items, i)))
           else out[i] == items[i]
  {
    TextRunChecks(codec, toolName, items, replies);
    var out := GuardTextItems(codec, toolName, items, replies).outcome.items;
    forall i | 0 <= i < |items|
      ensures if IsText(items[i])
              then Continues(OutputDecisionAt(replies, TextsBefore(items, i)))
                   && out[i] == Rewritten(items[i], OutputDecisionAt(replies, TextsBefore(items, i)))
              else out[i] == items[i]
    {
      TextPassedItemAt(codec, toolName, items, replies, i);
      assert ItemPassedAt(items, replies, out, i);
    }
  }

  /** When every text item's checkpoint allows it, the loop changes nothing and checks every text item. */
  lemma {:induction false} TextAllAllowed(codec: Codec, toolName: string, items: seq<ContentItem>, replies: seq<Verdict>)
    requires |TextItems(items)| <= |replies|
    requires forall t :: 0 <= t < |TextItems(items)| ==> Allows(replies[t])
    ensures GuardTextItems(codec, toolName, items, replies) == TextRun(Passed(items), OutputRequests(toolName, TextItems(items)))
    decreases |items|
  {
    if items == [] {
      return;
    }
    assert items == [items[0]] + items[1..];
    if !IsText(items[0]) {
      assert TextItems(items) == TextItems(items[1..]);
      SkipStep(codec, toolName, items, replies);
      TextAllAllowed(codec, toolName, items[1..], replies);
    } else {
      assert TextItems(items) == [items[0]] + TextItems(items[1..]);
      OutputRequestsCons(toolName, items[0], TextItems(items[1..]));
      assert Allows(replies[0]);
      assert ReplyAt(replies, 0) == Some(replies[0]);
      PassStep(codec, toolName, items, replies);
      forall t | 0 <= t < |TextItems(items[1..])|
        ensures Allows(replies[1..][t])
      {
        assert Allows(replies[t + 1]);
      }
      TextAllAllowed(codec, toolName, items[1..], replies[1..]);
    }
  }
}
