/** The notification panel: fetched items split into a notifications tab
    and a warnings tab, and a selection of item ids that the check boxes,
    "select all", the tab buttons, delete and mark-as-read change. */
module NotificationCenter {
  import opened Common

  /** A notification as the panel reads it; `itype` is absent on items
      written before types existed. */
  datatype Item = Item(id: string, itype: Option<string>, isRead: bool)

  datatype Tab = NotificationsTab | WarningsTab

  // ---------------------------------------------------------------------
  // The two tabs
  // ---------------------------------------------------------------------

  /** Items of type info or success, or with no type, belong to the
      notifications tab. */
  predicate IsNotification(n: Item) {
    n.itype == Some("info") || n.itype == Some("success") || !Truthy(n.itype)
  }

  /** Items of type warning or error belong to the warnings tab. */
  predicate IsWarning(n: Item) {
    n.itype == Some("warning") || n.itype == Some("error")
  }

  function Notifications(items: seq<Item>): seq<Item> {
    Filter(items, IsNotification)
  }

  function Warnings(items: seq<Item>): seq<Item> {
    Filter(items, IsWarning)
  }

  /** Each tab keeps the fetched order; an item is in the notifications
      tab exactly when it is info, success or untyped, in the warnings tab
      exactly when it is a warning or an error, in no tab when its type is
      anything else, and never in both. */
  lemma Partition(items: seq<Item>)
    ensures Subseq(Notifications(items), items) && Subseq(Warnings(items), items)
    ensures forall n | n in items ::
      && (n in Notifications(items) <==> n.itype.None? || n.itype.value in {"", "info", "success"})
      && (n in Warnings(items) <==> n.itype.Some? && n.itype.value in {"warning", "error"})
      && !(n in Notifications(items) && n in Warnings(items))
  {
  }

  // ---------------------------------------------------------------------
  // Selection
  // ---------------------------------------------------------------------

  function Unread(items: seq<Item>): seq<Item> {
    Filter(items, (n: Item) => !n.isRead)
  }

  function Ids(items: seq<Item>): (ids: seq<string>)
    ensures |ids| == |items| && forall k | 0 <= k < |items| :: ids[k] == items[k].id
  {
    seq(|items|, k requires 0 <= k < |items| => items[k].id)
  }

  /** `allUnreadSelected`: the tab has an unread item and every unread
      item's id is selected. */
  predicate AllUnreadSelected(items: seq<Item>, selected: seq<string>) {
    (exists n | n in items :: !n.isRead) && forall n | n in items && !n.isRead :: n.id in selected
  }

  /** The check box of one item: its id leaves the selection when it is
      in it, and joins it at the end otherwise. */
  function Toggle(selected: seq<string>, id: string): (r: seq<string>)
    ensures id in selected ==> r == Filter(selected, (x: string) => x != id)
    ensures id !in selected ==> r == selected + [id]
  {
    if id in selected then Filter(selected, (x: string) => x != id) else selected + [id]
  }

  lemma {:induction false} FilterKeepsAllBut(s: seq<string>, id: string)
    requires id !in s
    ensures Filter(s, (x: string) => x != id) == s
  {
    if s != [] {
      FilterKeepsAllBut(s[1..], id);
    }
  }

  /** Toggling flips exactly one id; toggling it twice restores the set
      of selected ids, and restores the selection itself when the id was
      not selected. Toggling never selects an id twice. */
  lemma ToggleInvolution(selected: seq<string>, id: string)
    ensures forall x :: x in Toggle(selected, id) <==> (if x == id then id !in selected else x in selected)
    ensures forall x :: x in Toggle(Toggle(selected, id), id) <==> x in selected
    ensures id !in selected ==> Toggle(Toggle(selected, id), id) == selected
  {
    if id !in selected {
      FilterKeepsAllBut(selected, id);
      assert Toggle(Toggle(selected, id), id) == Filter(selected + [id], (x: string) => x != id);
      FilterSnoc(selected, id, (x: string) => x != id);
    }
  }

  predicate NoDup(s: seq<string>) {
    forall i, j | 0 <= i < j < |s| :: s[i] != s[j]
  }

  lemma ToggleKeepsNoDup(selected: seq<string>, id: string)
    requires NoDup(selected)
    ensures NoDup(Toggle(selected, id))
  {
    if id in selected {
      NoDupSubseq(Filter(selected, (x: string) => x != id), selected);
    }
  }

  lemma {:induction false} NoDupSubseq(r: seq<string>, s: seq<string>)
    requires Subseq(r, s) && NoDup(s)
    ensures NoDup(r)
    decreases |s|
  {
    if s != [] {
      assert NoDup(s[1..]) by {
        forall i, j | 0 <= i < j < |s[1..]| ensures s[1..][i] != s[1..][j] {
          assert s[1..][i] == s[i + 1] && s[1..][j] == s[j + 1];
        }
      }
      if r != [] && r[0] == s[0] && Subseq(r[1..], s[1..]) {
        NoDupSubseq(r[1..], s[1..]);
        SubseqIn(r[1..], s[1..]);
        forall i, j | 0 <= i < j < |r| ensures r[i] != r[j] {
          if i == 0 {
            assert r[j] == r[1..][j - 1];
            assert r[j] in s[1..];
          } else {
            assert r[i] == r[1..][i - 1] && r[j] == r[1..][j - 1];
          }
        }
      } else {
        NoDupSubseq(r, s[1..]);
      }
    }
  }

  lemma {:induction false} SubseqIn(r: seq<string>, s: seq<string>)
    requires Subseq(r, s)
    ensures forall x | x in r :: x in s
    decreases |s|
  {
    if s != [] {
      if r != [] && r[0] == s[0] && Subseq(r[1..], s[1..]) {
        SubseqIn(r[1..], s[1..]);
        assert forall x | x in r :: x == r[0] || x in r[1..];
      } else {
        SubseqIn(r, s[1..]);
      }
    }
  }

  /** "Select all" as the handler is written: it compares only the number
      of selected ids with the number of unread items. */
  function SelectAllAsWritten(items: seq<Item>, selected: seq<string>): (r: seq<string>)
    ensures r == [] || r == Ids(Unread(items))
    ensures |selected| != |Unread(items)| ==> r == Ids(Unread(items))
    ensures |selected| == |Unread(items)| ==> r == []
  {
    if |selected| == |Unread(items)| then [] else Ids(Unread(items))
  }

  /** A read item can be ticked by its check box, so the counts can agree
      while an unread item is unselected: the box shows "not all
      selected" and the click empties the selection instead of selecting
      the unread items. */
  lemma SelectAllAsWrittenMisses()
    ensures var items := [Item("a", Some("info"), false), Item("b", Some("info"), false), Item("c", Some("info"), true)];
      var selected := ["c", "a"];
      && !AllUnreadSelected(items, selected)
      && SelectAllAsWritten(items, selected) == []
      && !AllUnreadSelected(items, SelectAllAsWritten(items, selected))
  {
    var items := [Item("a", Some("info"), false), Item("b", Some("info"), false), Item("c", Some("info"), true)];
    assert Unread(items) == [items[0], items[1]];
    assert items[1] in items && !items[1].isRead && "b" !in ["c", "a"];
  }

  /** "Select all" as the check box it sits next to presents it: clear
      the selection when every unread item is selected, otherwise select
      exactly the unread items. */
  function SelectAll(items: seq<Item>, selected: seq<string>): (r: seq<string>)
    ensures AllUnreadSelected(items, selected) ==> r == []
    ensures !AllUnreadSelected(items, selected) ==> r == Ids(Unread(items))
  {
    if AllUnreadSelected(items, selected) then [] else Ids(Unread(items))
  }

  /** With an unread item in the tab, each click of "select all" flips
      the box between all unread selected and nothing selected, and what
      it selects is exactly the unread ids. */
  lemma SelectAllFlips(items: seq<Item>, selected: seq<string>)
    requires exists n | n in items :: !n.isRead
    ensures AllUnreadSelected(items, SelectAll(items, selected)) <==> !AllUnreadSelected(items, selected)
    ensures forall x :: x in SelectAll(items, selected) ==> exists n | n in items :: !n.isRead && n.id == x
  {
    var u := Unread(items);
    var ids := Ids(u);
    forall n | n in items && !n.isRead ensures n.id in ids {
      assert n in u;
      var k :| 0 <= k < |u| && u[k] == n;
      assert ids[k] == n.id;
    }
    forall x | x in ids ensures exists n | n in items :: !n.isRead && n.id == x {
      var k :| 0 <= k < |ids| && ids[k] == x;
      assert u[k] in u;
    }
  }

  // ---------------------------------------------------------------------
  // The panel state
  // ---------------------------------------------------------------------

  /** The body of a successful fetch: the items (absent counts as none)
      and the unread count (absent counts as zero). */
  datatype FetchResponse = FetchResponse(items: Option<seq<Item>>, unreadCount: Option<nat>)

  /** What a delete click did: nothing selected (an error toast and no
      request), the ids sent and deleted, or the request failed. */
  datatype DeleteResult = NothingSelected | Deleted(ids: seq<string>) | DeleteFailed

  class Panel {
    var activeTab: Tab
    var notifications: seq<Item>
    var warnings: seq<Item>
    var selectedIds: seq<string>
    var unreadCount: nat

    constructor()
      ensures activeTab == NotificationsTab && notifications == [] && warnings == []
      ensures selectedIds == [] && unreadCount == 0
    {
      activeTab := NotificationsTab;
      notifications := [];
      warnings := [];
      selectedIds := [];
      unreadCount := 0;
    }

    function CurrentItems(): seq<Item>
      reads this
    {
      if activeTab == NotificationsTab then notifications else warnings
    }

    /** `fetchNotifications` once the request has ended: a response
        replaces both tabs and the count; a failed request changes
        nothing. The selection is kept either way. */
    method FetchNotifications(response: Option<FetchResponse>)
      modifies this
      ensures response.Some? ==> var all := response.value.items.GetOr([]);
        notifications == Notifications(all) && warnings == Warnings(all)
        && unreadCount == response.value.unreadCount.GetOr(0)
      ensures response.None? ==> notifications == old(notifications) && warnings == old(warnings) && unreadCount == old(unreadCount)
      ensures activeTab == old(activeTab) && selectedIds == old(selectedIds)
    {
      if response.Some? {
        var allItems := response.value.items.GetOr([]);
        notifications := Filter(allItems, IsNotification);
        warnings := Filter(allItems, IsWarning);
        unreadCount := response.value.unreadCount.GetOr(0);
      }
    }

    /** `handleSelectAll`, with the selection decided by whether every
        unread item is selected (see `SelectAllAsWrittenMisses`). */
    method HandleSelectAll()
      modifies this
      ensures selectedIds == SelectAll(old(CurrentItems()), old(selectedIds))
      ensures activeTab == old(activeTab) && notifications == old(notifications) && warnings == old(warnings)
      ensures unreadCount == old(unreadCount)
    {
      var currentItems := CurrentItems();
      var unreadItems := Filter(currentItems, (n: Item) => !n.isRead);
      if AllUnreadSelected(currentItems, selectedIds) {
        selectedIds := [];
      } else {
        selectedIds := Ids(unreadItems);
      }
    }

    /** `handleSelectItem`. */
    method HandleSelectItem(id: string)
      modifies this
      ensures selectedIds == Toggle(old(selectedIds), id)
      ensures activeTab == old(activeTab) && notifications == old(notifications) && warnings == old(warnings)
      ensures unreadCount == old(unreadCount)
    {
      if id in selectedIds {
        selectedIds := Filter(selectedIds, (x: string) => x != id);
      } else {
        selectedIds := selectedIds + [id];
      }
    }

    /** A tab button: shows its tab and clears the selection. */
    method SwitchTab(tab: Tab)
      modifies this
      ensures activeTab == tab && selectedIds == []
      ensures notifications == old(notifications) && warnings == old(warnings) && unreadCount == old(unreadCount)
    {
      activeTab := tab;
      selectedIds := [];
    }

    /** `handleDeleteSelected`: nothing is sent for an empty selection; a
        successful request clears the selection (the list is then fetched
        again); a failed one keeps it. */
    method HandleDeleteSelected(serverOk: bool) returns (result: DeleteResult)
      modifies this
      ensures old(selectedIds) == [] ==> result == NothingSelected
      ensures old(selectedIds) != [] && serverOk ==> result == Deleted(old(selectedIds)) && selectedIds == []
      ensures old(selectedIds) != [] && !serverOk ==> result == DeleteFailed && selectedIds == old(selectedIds)
      ensures result.NothingSelected? ==> selectedIds == []
      ensures activeTab == old(activeTab) && notifications == old(notifications) && warnings == old(warnings)
      ensures unreadCount == old(unreadCount)
    {
      if |selectedIds| == 0 {
        return NothingSelected;
      }
      if serverOk {
        result := Deleted(selectedIds);
        selectedIds := [];
      } else {
        result := DeleteFailed;
      }
    }

    /** `handleMarkAsRead`: a successful request clears the selection (the
        list is then fetched again); a failed one keeps it. */
    method HandleMarkAsRead(ids: seq<string>, serverOk: bool)
      modifies this
      ensures selectedIds == if serverOk then [] else old(selectedIds)
      ensures activeTab == old(activeTab) && notifications == old(notifications) && warnings == old(warnings)
      ensures unreadCount == old(unreadCount)
    {
      if serverOk {
        selectedIds := [];
      }
    }
  }

  /** The message of the delete toast. */
  function DeleteToast(r: DeleteResult): (m: string)
    ensures r.NothingSelected? ==> m == "Lütfen silmek için bildirim seçin"
    ensures r.Deleted? ==> m == NatToString(|r.ids|) + " bildirim silindi"
    ensures r.DeleteFailed? ==> m == "Bildirimler silinirken hata oluştu"
  {
    match r
    case NothingSelected => "Lütfen silmek için bildirim seçin"
    case Deleted(ids) => NatToString(|ids|) + " bildirim silindi"
    case DeleteFailed => "Bildirimler silinirken hata oluştu"
  }
}
