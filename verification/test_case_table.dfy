/** components/test-cases/test-case-table.tsx: row selection kept as a list of ids,
    and the badge variant of a priority. Rows are represented by their ids. */
module TestCaseTable {

  /** `testCases.length > 0 && testCases.every((tc) => selectedIds.includes(tc.id))`. */
  predicate AllSelected(rows: seq<nat>, selected: seq<nat>)
  {
    |rows| > 0 && forall i :: 0 <= i < |rows| ==> rows[i] in selected
  }

  /** `toggleAll`: clear when everything is selected, otherwise select the rows in list order. */
  function ToggleAll(rows: seq<nat>, selected: seq<nat>): (r: seq<nat>)
    ensures AllSelected(rows, selected) ==> r == []
    ensures !AllSelected(rows, selected) ==> r == rows
  {
    if AllSelected(rows, selected) then [] else rows
  }

  /** `selectedIds.filter((sid) => sid !== id)`. */
  function Without(s: seq<nat>, id: nat): (r: seq<nat>)
    ensures |r| <= |s|
  {
    if s == [] then []
    else (if s[0] == id then [] else [s[0]]) + Without(s[1..], id)
  }

  /** Filtering drops every occurrence of id, keeps every other id and their order. */
  lemma {:induction false} WithoutSpec(s: seq<nat>, id: nat)
    ensures forall x :: x in Without(s, id) <==> x in s && x != id
    ensures id !in s ==> Without(s, id) == s
  {
    if s != [] {
      WithoutSpec(s[1..], id);
      assert s == [s[0]] + s[1..];
    }
  }

  lemma {:induction false} WithoutConcat(a: seq<nat>, b: seq<nat>, id: nat)
    ensures Without(a + b, id) == Without(a, id) + Without(b, id)
  {
    if a == [] {
      assert a + b == b;
    } else {
      assert (a + b)[1..] == a[1..] + b;
      WithoutConcat(a[1..], b, id);
    }
  }

  /** `toggleSelect(id)`. */
  function ToggleSelect(selected: seq<nat>, id: nat): (r: seq<nat>)
    ensures id in selected ==> r == Without(selected, id)
    ensures id !in selected ==> r == selected + [id]
  {
    if id in selected then Without(selected, id) else selected + [id]
  }

  /** Toggling flips membership of id and of nothing else. */
  lemma ToggleSelectFlips(selected: seq<nat>, id: nat, other: nat)
    ensures id in ToggleSelect(selected, id) <==> id !in selected
    ensures other != id ==> (other in ToggleSelect(selected, id) <==> other in selected)
  {
    WithoutSpec(selected, id);
  }

  /** Selecting an unselected row and deselecting it again restores the selection exactly. */
  lemma ToggleSelectTwice(selected: seq<nat>, id: nat)
    requires id !in selected
    ensures ToggleSelect(ToggleSelect(selected, id), id) == selected
  {
    WithoutConcat(selected, [id], id);
    WithoutSpec(selected, id);
    assert Without([id], id) == [] by { assert [id][1..] == []; }
  }

  /** After toggleAll from a partial selection every row is selected, and toggling again clears. */
  lemma ToggleAllTwice(rows: seq<nat>, selected: seq<nat>)
    requires |rows| > 0 && !AllSelected(rows, selected)
    ensures AllSelected(rows, ToggleAll(rows, selected))
    ensures ToggleAll(rows, ToggleAll(rows, selected)) == []
  {
  }

  /** `getPriorityColor`. */
  function PriorityColor(priority: string): (variant: string)
    ensures variant == "destructive" <==> priority == "Critical"
    ensures variant == "default" <==> priority == "High"
    ensures variant == "outline" <==> priority == "Low"
    ensures variant == "secondary" <==> priority != "Critical" && priority != "High" && priority != "Low"
  {
    match priority
    case "Critical" => "destructive"
    case "High" => "default"
    case "Medium" => "secondary"
    case "Low" => "outline"
    case _ => "secondary"
  }
}
