/** The analyser's wording helpers: percentage phrases, lists of bar
    numbers, count lists and their summaries. */
module Wording {
  import opened Dicts
  import opened Text
  import Sorting

  /** `describe_repetition_percentage`: strict `>` thresholds, checked from the top. */
  function DescribeRepetitionPercentage(percent: real): (phrase: string)
    ensures phrase == "" <==> percent <= 33.0
    ensures phrase == "all" <==> percent > 99.0
  {
    if percent > 99.0 then "all"
    else if percent > 85.0 then "almost all"
    else if percent > 75.0 then "over three quarters"
    else if percent > 50.0 then "over half"
    else if percent > 33.0 then "over a third"
    else ""
  }

  /** The band a percentage falls in, 0 for "at most 33" up to 5 for "above 99". */
  function RepetitionLevel(percent: real): nat {
    (if percent > 33.0 then 1 else 0) + (if percent > 50.0 then 1 else 0) + (if percent > 75.0 then 1 else 0)
    + (if percent > 85.0 then 1 else 0) + (if percent > 99.0 then 1 else 0)
  }

  function RepetitionRank(phrase: string): nat {
    if phrase == "all" then 5 else if phrase == "almost all" then 4
    else if phrase == "over three quarters" then 3 else if phrase == "over half" then 2
    else if phrase == "over a third" then 1 else 0
  }

  /** The phrase names the band the percentage falls in. */
  lemma RepetitionWordingNamesBand(p: real)
    ensures RepetitionRank(DescribeRepetitionPercentage(p)) == RepetitionLevel(p)
  {
  }

  /** A larger share is never described by a weaker phrase. */
  lemma RepetitionWordingIsMonotone(p: real, q: real)
    requires p <= q
    ensures RepetitionRank(DescribeRepetitionPercentage(p)) <= RepetitionRank(DescribeRepetitionPercentage(q))
  {
    RepetitionWordingNamesBand(p);
    RepetitionWordingNamesBand(q);
  }

  /** `describe_percentage`, for common elements. */
  function DescribePercentage(percent: real): (phrase: string)
    ensures phrase == "" <==> percent <= 1.0
    ensures phrase == "all" <==> percent > 99.0
  {
    if percent > 99.0 then "all"
    else if percent > 90.0 then "almost all"
    else if percent > 75.0 then "most"
    else if percent > 45.0 then "lots of"
    else if percent > 30.0 then "some"
    else if percent > 10.0 then "a few"
    else if percent > 1.0 then "very few"
    else ""
  }

  function CommonLevel(percent: real): nat {
    (if percent > 1.0 then 1 else 0) + (if percent > 10.0 then 1 else 0) + (if percent > 30.0 then 1 else 0)
    + (if percent > 45.0 then 1 else 0) + (if percent > 75.0 then 1 else 0) + (if percent > 90.0 then 1 else 0)
    + (if percent > 99.0 then 1 else 0)
  }

  function CommonRank(phrase: string): nat {
    if phrase == "all" then 7 else if phrase == "almost all" then 6 else if phrase == "most" then 5
    else if phrase == "lots of" then 4 else if phrase == "some" then 3 else if phrase == "a few" then 2
    else if phrase == "very few" then 1 else 0
  }

  /** The phrase names the band the percentage falls in, so a larger share is never described by a weaker phrase. */
  lemma CommonWordingNamesBand(p: real, q: real)
    requires p <= q
    ensures CommonRank(DescribePercentage(p)) == CommonLevel(p)
    ensures CommonRank(DescribePercentage(p)) <= CommonRank(DescribePercentage(q))
  {
    assert CommonRank(DescribePercentage(q)) == CommonLevel(q);
  }

  /** `describe_percentage_uncommon`, weighted for rare elements; it never returns "". */
  function DescribePercentageUncommon(percent: real): (phrase: string)
    ensures phrase != ""
    ensures phrase == "some" <==> percent <= 0.5
    ensures phrase == "many" <==> percent > 5.0
  {
    if percent > 5.0 then "many"
    else if percent > 2.0 then "a lot of"
    else if percent > 1.0 then "quite a few"
    else if percent > 0.5 then "a few"
    else "some"
  }

  /** Items joined with ", ". */
  function Joined(items: seq<string>): string {
    if items == [] then ""
    else if |items| == 1 then items[0]
    else Joined(items[..|items| - 1]) + ", " + items[|items| - 1]
  }

  /** "1, 4 and 6": commas between all but the last two, " and " before the last. */
  function CommaAndListText(items: seq<string>): string {
    if |items| <= 1 then Joined(items)
    else Joined(items[..|items| - 1]) + " and " + items[|items| - 1]
  }

  /** `comma_and_list`, with each value already turned into its text. */
  method CommaAndList(items: seq<string>) returns (output: string)
    ensures output == CommaAndListText(items)
  {
    if items == [] {
      return "";
    }
    output := "";
    var index := 0;
    while index < |items|
      invariant 0 <= index <= |items|
      invariant output == if index == |items| then CommaAndListText(items) else Joined(items[..index])
    {
      if index == |items| - 1 && index > 0 {
        output := output + " and ";
      } else if index < |items| - 1 && index > 0 {
        output := output + ", ";
      }
      assert items[..index + 1][..index] == items[..index];
      output := output + items[index];
      index := index + 1;
    }
  }

  /** Two items are joined by " and " alone, three by a comma and an " and ";
      the text is empty only for an empty list of non-empty items. */
  lemma CommaAndListShapes(a: string, b: string, c: string)
    ensures CommaAndListText([a, b]) == a + " and " + b
    ensures CommaAndListText([a, b, c]) == a + ", " + b + " and " + c
  {
    assert [a, b][..1] == [a];
    assert [a, b, c][..2] == [a, b];
    assert [a, b][..1] == [a];
  }

  lemma {:induction false} CommaAndListEmptyIff(items: seq<string>)
    requires forall i :: 0 <= i < |items| ==> items[i] != ""
    ensures CommaAndListText(items) == "" <==> items == []
  {
    if |items| > 1 {
      assert |CommaAndListText(items)| >= |items[|items| - 1]|;
    }
  }

  /** The separator written after the `j`th of `n` items: ", " before all but the last
      two, " and " between the last two, and nothing after the last. */
  function Separator(j: nat, n: nat): string {
    if j + 2 == n then " and " else if j + 2 < n then ", " else ""
  }

  /** The first `count` items, each followed by its separator. */
  function Listed(items: seq<string>, count: nat): string
    requires count <= |items|
  {
    if count == 0 then "" else Listed(items, count - 1) + items[count - 1] + Separator(count - 1, |items|)
  }

  /** Before the last item, the items written so far are the comma-joined prefix and a separator. */
  lemma {:induction false} ListedPrefix(items: seq<string>, count: nat)
    requires 0 < count < |items|
    ensures Listed(items, count) == Joined(items[..count]) + Separator(count - 1, |items|)
  {
    if count > 1 {
      ListedPrefix(items, count - 1);
      assert items[..count][..count - 1] == items[..count - 1];
    }
  }

  /** Writing each item with its separator gives the `comma_and_list` text. */
  lemma ListedIsCommaAndList(items: seq<string>)
    requires |items| > 0
    ensures Listed(items, |items|) == CommaAndListText(items)
  {
    if |items| > 1 {
      ListedPrefix(items, |items| - 1);
    }
  }

  /** One key, time or tempo change: its description and the bar it happens at. */
  datatype Change = Change(description: string, measureNumber: int)

  function ChangeItem(change: Change): string {
    change.description + " at bar " + IntToString(change.measureNumber)
  }

  /** The item for every change after the initial state. */
  function ChangeItems(changes: seq<Change>): (items: seq<string>)
    requires |changes| > 0
    ensures |items| == |changes| - 1
    ensures forall i :: 0 <= i < |items| ==> items[i] == ChangeItem(changes[i + 1])
  {
    seq(|changes| - 1, i requires 0 <= i < |changes| - 1 => ChangeItem(changes[i + 1]))
  }

  /** The summary of a collection whose first element is the initial state: a count for more
      than four changes, otherwise each change with its bar in `comma_and_list` wording. */
  function MusicalChangesText(changes: seq<Change>, changeType: string): string {
    var numChanges := |changes| - 1;
    if numChanges > 4 then "There are " + IntToString(numChanges) + " " + changeType + " changes. "
    else if numChanges > 0 then "The " + changeType + " changes to " + CommaAndListText(ChangeItems(changes)) + ". "
    else ""
  }

  /** There is a summary exactly when the collection holds a change after its initial state. */
  lemma MusicalChangesEmptyIff(changes: seq<Change>, changeType: string)
    ensures MusicalChangesText(changes, changeType) == "" <==> |changes| <= 1
  {
    if 1 < |changes| <= 5 {
      var text := MusicalChangesText(changes, changeType);
      assert text == "The " + changeType + " changes to " + CommaAndListText(ChangeItems(changes)) + ". ";
      assert |text| > 0;
    }
  }

  /** The change-listing loop of `_summarise_musical_changes`, after the initial state. */
  method ListChanges(changes: seq<Change>) returns (listed: string)
    requires 1 < |changes|
    ensures listed == CommaAndListText(ChangeItems(changes))
  {
    ghost var items := ChangeItems(changes);
    var numChanges := |changes| - 1;
    listed := "";
    var index := 0;
    while index < |changes|
      invariant 0 <= index <= |changes|
      invariant listed == Listed(items, if index == 0 then 0 else index - 1)
    {
      if index > 0 {
        listed := listed + ChangeItem(changes[index]);
        if index == numChanges - 1 {
          listed := listed + " and ";
        } else if index < numChanges - 1 {
          listed := listed + ", ";
        }
      }
      index := index + 1;
    }
    ListedIsCommaAndList(items);
  }

  /** `_summarise_musical_changes`, given each change's description. */
  method SummariseMusicalChanges(changes: seq<Change>, changeType: string) returns (summary: string)
    ensures summary == MusicalChangesText(changes, changeType)
  {
    var numChanges := |changes| - 1;
    if numChanges > 4 {
      return "There are " + IntToString(numChanges) + " " + changeType + " changes. ";
    } else if numChanges > 0 {
      var listed := ListChanges(changes);
      return "The " + changeType + " changes to " + listed + ". ";
    }
    return "";
  }

  /** The decimal text of each bar number. */
  function NumberTexts(xs: seq<int>): (r: seq<string>)
    ensures |r| == |xs|
    ensures forall i :: 0 <= i < |xs| ==> r[i] == IntToString(xs[i])
  {
    if xs == [] then [] else NumberTexts(xs[..|xs| - 1]) + [IntToString(xs[|xs| - 1])]
  }

  /** `replace_end_with` exactly as written: when `remove` is empty, the slice
      `original[:-0]` is the empty string, so the whole text is replaced. */
  function ReplaceEndWithAsWritten(original: string, remove: string, add: string): string {
    if EndsWith(original, remove) then original[..(if |remove| == 0 then 0 else |original| - |remove|)] + add
    else original
  }

  /** With an empty suffix to remove, the text as written is lost. */
  lemma ReplaceEndWithAsWrittenDropsText()
    ensures ReplaceEndWithAsWritten("bars", "", "!") == "!"
  {
  }

  /** `replace_end_with` as intended: a text ending in `remove` has that ending replaced by `add`. */
  function ReplaceEndWith(original: string, remove: string, add: string): (r: string)
    ensures EndsWith(original, remove) ==> r == original[..|original| - |remove|] + add
    ensures !EndsWith(original, remove) ==> r == original
  {
    if EndsWith(original, remove) then original[..|original| - |remove|] + add else original
  }

  /** Replacing the ending undoes appending it, for every ending including the empty one. */
  lemma ReplaceEndWithRoundTrip(x: string, remove: string, add: string)
    ensures ReplaceEndWith(x + remove, remove, add) == x + add
  {
    assert (x + remove)[|x|..] == remove;
    assert (x + remove)[..|x|] == x;
  }

  /** The two agree whenever there is something to remove, as at every call in the analyser. */
  lemma ReplaceEndWithAgrees(original: string, remove: string, add: string)
    requires |remove| > 0
    ensures ReplaceEndWithAsWritten(original, remove, add) == ReplaceEndWith(original, remove, add)
  {
  }

  /** An item's share of the total, as the fraction `count / total`. */
  function Share(count: int, total: int): real
    requires total != 0
  {
    count as real / total as real
  }

  /** One entry of `describe_count_list`: the quantifier for the item's share of the total. */
  function CountPhrase(item: string, share: real): (phrase: string)
    ensures phrase == "" || (|phrase| >= 6 && EndsWith(phrase, ", "))
    ensures phrase == "" <==> share <= 0.3
  {
    if share > 0.98 then "all " + item + ", "
    else if share > 0.90 then "almost all " + item + ", "
    else if share > 0.6 then "mostly " + item + ", "
    else if share > 0.3 then "some " + item + ", "
    else ""
  }

  function CountPhrases(countList: seq<(string, int)>, total: int): string
    requires total != 0
  {
    if countList == [] then ""
    else
      var (item, count) := countList[|countList| - 1];
      CountPhrases(countList[..|countList| - 1], total) + CountPhrase(item, Share(count, total))
  }

  /** The phrases are empty, or end in the separator that is then removed. */
  lemma {:induction false} CountPhrasesShape(countList: seq<(string, int)>, total: int)
    requires total != 0
    ensures var text := CountPhrases(countList, total);
              text == "" || (|text| >= 6 && EndsWith(text, ", "))
    ensures CountPhrases(countList, total) == "" <==>
              forall i :: 0 <= i < |countList| ==> Share(countList[i].1, total) <= 0.3
  {
    if countList != [] {
      var init := countList[..|countList| - 1];
      var (item, count) := countList[|countList| - 1];
      CountPhrasesShape(init, total);
      var phrase := CountPhrase(item, Share(count, total));
      var text := CountPhrases(init, total) + phrase;
      assert text == CountPhrases(countList, total);
      if phrase != "" {
        assert text[|text| - 2..] == phrase[|phrase| - 2..];
      }
      assert forall i :: 0 <= i < |init| ==> init[i] == countList[i];
    }
  }

  lemma CountPhrasesStep(countList: seq<(string, int)>, i: nat, total: int)
    requires total != 0 && i < |countList|
    ensures CountPhrases(countList[..i + 1], total) ==
              CountPhrases(countList[..i], total) + CountPhrase(countList[i].0, Share(countList[i].1, total))
  {
    assert countList[..i + 1][..i] == countList[..i];
  }

  /** What `describe_count_list` returns. */
  function CountListText(countList: seq<(string, int)>, total: int): string {
    if total == 0 then "" else ReplaceEndWith(CountPhrases(countList, total), ", ", "")
  }

  /** The count-list description is empty exactly when no item has more than 30% of the total. */
  lemma CountListEmptyIff(countList: seq<(string, int)>, total: int)
    requires total != 0
    ensures CountListText(countList, total) == "" <==>
              forall i :: 0 <= i < |countList| ==> Share(countList[i].1, total) <= 0.3
  {
    CountPhrasesShape(countList, total);
    var text := CountPhrases(countList, total);
    if text != "" {
      assert |ReplaceEndWith(text, ", ", "")| == |text| - 2;
    }
  }

  /** `describe_count_list`. */
  method DescribeCountList(countList: seq<(string, int)>, total: int) returns (description: string)
    ensures description == CountListText(countList, total)
  {
    if total == 0 {
      return "";
    }
    description := "";
    var i := 0;
    while i < |countList|
      invariant 0 <= i <= |countList|
      invariant description == CountPhrases(countList[..i], total)
    {
      var (item, count) := countList[i];
      var percentage := count as real / total as real;
      assert percentage == Share(count, total);
      CountPhrasesStep(countList, i, total);
      ghost var before := description;
      if percentage > 0.98 {
        description := description + ("all " + item + ", ");
      } else if percentage > 0.90 {
        description := description + ("almost all " + item + ", ");
      } else if percentage > 0.6 {
        description := description + ("mostly " + item + ", ");
      } else if percentage > 0.3 {
        description := description + ("some " + item + ", ");
      }
      assert description == before + CountPhrase(item, Share(count, total));
      i := i + 1;
    }
    assert countList[..i] == countList;
    description := ReplaceEndWith(description, ", ", "");
  }

  /** The running state of `describe_count_list_several`. */
  datatype Tally = Tally(top: seq<string>, remaining: nat, progress: real)

  function ItemsOf(countList: seq<(string, int)>): (names: seq<string>)
    ensures |names| == |countList|
    ensures forall i :: 0 <= i < |countList| ==> names[i] == countList[i].0
  {
    if countList == [] then [] else ItemsOf(countList[..|countList| - 1]) + [countList[|countList| - 1].0]
  }

  /** Items are taken while less than 40% of the total is covered; after that the
      remaining non-zero items are only counted. */
  function TallyOf(countList: seq<(string, int)>, total: int): (t: Tally)
    requires total != 0
    ensures |t.top| <= |countList|
  {
    if countList == [] then Tally([], 0, 0.0)
    else
      var t := TallyOf(countList[..|countList| - 1], total);
      var (item, count) := countList[|countList| - 1];
      if t.progress < 40.0 then Tally(t.top + [item], t.remaining, t.progress + count as real / total as real * 100.0)
      else Tally(t.top, t.remaining + (if count > 0 then 1 else 0), t.progress)
  }

  /** The top items are the leading items of the list, and all of them while 40% is not reached. */
  lemma {:induction false} TopItemsLead(countList: seq<(string, int)>, total: int)
    requires total != 0
    ensures TallyOf(countList, total).top == ItemsOf(countList[..|TallyOf(countList, total).top|])
    ensures TallyOf(countList, total).progress < 40.0 ==> |TallyOf(countList, total).top| == |countList|
  {
    if countList != [] {
      var init := countList[..|countList| - 1];
      TopItemsLead(init, total);
      var t := TallyOf(init, total);
      if t.progress < 40.0 {
        assert countList[..|t.top| + 1] == countList;
        assert init == countList[..|t.top|];
      } else {
        assert countList[..|t.top|] == init[..|t.top|];
      }
    }
  }

  /** What `describe_count_list_several` returns. */
  function SeveralText(countList: seq<(string, int)>, total: int, itemName: string): string {
    if total == 0 then ""
    else
      var t := TallyOf(countList, total);
      if |t.top| <= 4 then
        if t.remaining > 1 then "mostly " + CommaAndListText(t.top) + "; plus " + NatToString(t.remaining) + " other " + itemName
        else "mostly " + CommaAndListText(t.top)
      else NatToString(|t.top|) + " " + itemName + ", the most common is " + countList[0].0
  }

  /** The loop of `describe_count_list_several`. */
  method TallyItems(countList: seq<(string, int)>, total: int) returns (t: Tally)
    requires total != 0
    ensures t == TallyOf(countList, total)
  {
    var top: seq<string> := [];
    var remaining: nat := 0;
    var progress: real := 0.0;
    var i := 0;
    while i < |countList|
      invariant 0 <= i <= |countList|
      invariant Tally(top, remaining, progress) == TallyOf(countList[..i], total)
    {
      var (item, count) := countList[i];
      assert countList[..i + 1][..i] == countList[..i];
      if progress < 40.0 {
        top := top + [item];
        progress := progress + count as real / total as real * 100.0;
      } else if count > 0 {
        remaining := remaining + 1;
      }
      i := i + 1;
    }
    assert countList[..i] == countList;
    t := Tally(top, remaining, progress);
  }

  /** `describe_count_list_several`. */
  method DescribeCountListSeveral(countList: seq<(string, int)>, total: int, itemName: string) returns (description: string)
    ensures description == SeveralText(countList, total, itemName)
  {
    if total == 0 {
      return "";
    }
    var t := TallyItems(countList, total);
    if |t.top| <= 4 {
      var listed := CommaAndList(t.top);
      description := "mostly " + listed;
      if t.remaining > 1 {
        description := description + "; plus " + NatToString(t.remaining) + " other " + itemName;
      }
    } else {
      description := NatToString(|t.top|) + " " + itemName + ", the most common is " + countList[0].0;
    }
  }

  function CountOf<K>(entry: (K, int)): int { entry.1 }

  /** `(key, len(value))` for every key, in key order. */
  function Counts<K(==,!new), V>(d: Dict<K, seq<V>>): (r: seq<(K, int)>)
    requires d.Valid()
    ensures |r| == |d.keys|
    ensures forall i :: 0 <= i < |r| ==> r[i] == (d.keys[i], |d.items[d.keys[i]]|)
  {
    seq(|d.keys|, i requires 0 <= i < |d.keys| => (d.keys[i], |d.items[d.keys[i]]|))
  }

  /** `count_dictionary`: one `[key, count]` per key, sorted by count, largest first.
      `list.sort` is stable, so keys with equal counts stay in dictionary order. */
  method CountDictionary<K(==,!new), V>(d: Dict<K, seq<V>>) returns (countList: seq<(K, int)>)
    requires d.Valid()
    ensures Sorting.SortedDesc(countList, CountOf)
    ensures multiset(countList) == multiset(Counts(d))
    ensures forall c :: Sorting.Only(countList, CountOf, c) == Sorting.Only(Counts(d), CountOf, c)
  {
    var entries: seq<(K, int)> := [];
    var i := 0;
    while i < |d.keys|
      invariant 0 <= i <= |d.keys|
      invariant entries == Counts(d)[..i]
    {
      entries := entries + [(d.keys[i], |d.items[d.keys[i]]|)];
      i := i + 1;
    }
    assert Counts(d)[..i] == Counts(d);
    countList := Sorting.SortDesc(entries, CountOf);
    forall c ensures Sorting.Only(countList, CountOf, c) == Sorting.Only(Counts(d), CountOf, c) {
      Sorting.SortDescStable(entries, CountOf, c);
    }
  }

  /** Every key of the dictionary appears in the count list with the length of its list. */
  lemma CountDictionaryEntries<K(!new), V>(d: Dict<K, seq<V>>, countList: seq<(K, int)>, k: K)
    requires d.Valid() && multiset(countList) == multiset(Counts(d))
    requires k in d.items
    ensures (k, |d.items[k]|) in countList
  {
    var i :| 0 <= i < |d.keys| && d.keys[i] == k;
    assert Counts(d)[i] == (k, |d.items[k]|);
    assert (k, |d.items[k]|) in multiset(Counts(d));
  }
}
