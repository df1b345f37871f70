/**
 * The contact list of `getUsersForSidebar` (src/controllers/message.controller.js):
 * the accepted connection rows that involve the user, each mapped to the party
 * of the row that is not the user. Rows keep the order of the query result and
 * duplicates are not removed.
 */
module ContactResolver {
  import opened MessageModel

  /** A connection request row; only its two parties and its status are read. */
  datatype Connection = Connection(fromUserId: UserId, toUserId: UserId, status: string)

  /** The query filter: status "accepted" and the user on either side. */
  predicate IsContactRow(row: Connection, u: UserId)
  {
    row.status == "accepted" && (row.fromUserId == u || row.toUserId == u)
  }

  /**
   * The party a row contributes: the recipient when the user sent the request,
   * else the sender. For a row involving `u` it is the party other than `u`;
   * only a self-connection yields `u` itself.
   */
  function Counterpart(row: Connection, u: UserId): (c: UserId)
    ensures row.fromUserId == u || row.toUserId == u ==> {c, u} == {row.fromUserId, row.toUserId}
    ensures row.fromUserId == u || row.toUserId == u ==> (c == u <==> row.fromUserId == row.toUserId)
  {
    if row.fromUserId == u then row.toUserId else row.fromUserId
  }

  /** The rows the connection query returns: every contact row as often as it occurs, and no other row. */
  function ContactRows(rows: seq<Connection>, u: UserId): (f: seq<Connection>)
    ensures forall row :: multiset(f)[row] == if IsContactRow(row, u) then multiset(rows)[row] else 0
  {
    if rows == [] then []
    else
      assert rows == [rows[0]] + rows[1..];
      (if IsContactRow(rows[0], u) then [rows[0]] else []) + ContactRows(rows[1..], u)
  }

  /** The `.map` over the query result. */
  function Counterparts(f: seq<Connection>, u: UserId): seq<UserId>
  {
    seq(|f|, i requires 0 <= i < |f| => Counterpart(f[i], u))
  }

  /** The response body's `data` object: the contact list and its length. */
  datatype SidebarData = SidebarData(length: nat, data: seq<UserId>)

  /**
   * The contact list of `u`: one entry per accepted row involving `u`, and a
   * user is listed exactly when some such row has that user as counterpart.
   */
  function GetUsersForSidebar(rows: seq<Connection>, u: UserId): (r: SidebarData)
    ensures r.length == |r.data| == |ContactRows(rows, u)|
    ensures forall c :: c in r.data <==> exists row :: row in rows && IsContactRow(row, u) && Counterpart(row, u) == c
  {
    var f := ContactRows(rows, u);
    var data := Counterparts(f, u);
    assert forall c :: c in data <==> exists row :: row in f && Counterpart(row, u) == c by {
      forall c ensures c in data <==> exists row :: row in f && Counterpart(row, u) == c {
        if c in data {
          var i :| 0 <= i < |data| && data[i] == c;
          assert f[i] in f;
        }
        if exists row :: row in f && Counterpart(row, u) == c {
          var row :| row in f && Counterpart(row, u) == c;
          var i :| 0 <= i < |f| && f[i] == row;
          assert data[i] == c;
        }
      }
    }
    assert forall row :: row in f <==> row in rows && IsContactRow(row, u) by {
      forall row ensures row in f <==> row in rows && IsContactRow(row, u) {
        assert row in f <==> multiset(f)[row] > 0;
        assert row in rows <==> multiset(rows)[row] > 0;
      }
    }
    SidebarData(|data|, data)
  }

  /**
   * Appending a row to the query result appends its counterpart when it is an
   * accepted row involving `u` (even one already listed) and changes nothing
   * otherwise: pending rows never contribute and duplicates are kept.
   */
  lemma {:induction false} SidebarAppend(rows: seq<Connection>, row: Connection, u: UserId)
    ensures GetUsersForSidebar(rows + [row], u).data
         == GetUsersForSidebar(rows, u).data + (if IsContactRow(row, u) then [Counterpart(row, u)] else [])
  {
    var f := ContactRows(rows, u);
    var g := if IsContactRow(row, u) then [row] else [];
    calc {
      GetUsersForSidebar(rows + [row], u).data;
      Counterparts(ContactRows(rows + [row], u), u);
      { ContactRowsAppend(rows, row, u); }
      Counterparts(f + g, u);
      { CounterpartsAppend(f, g, u); }
      Counterparts(f, u) + Counterparts(g, u);
      GetUsersForSidebar(rows, u).data + Counterparts(g, u);
    }
  }

  lemma CounterpartsAppend(f: seq<Connection>, g: seq<Connection>, u: UserId)
    ensures Counterparts(f + g, u) == Counterparts(f, u) + Counterparts(g, u)
  {
    var l, r := Counterparts(f + g, u), Counterparts(f, u) + Counterparts(g, u);
    assert |l| == |r|;
    forall i | 0 <= i < |l| ensures l[i] == r[i] {
      if i < |f| {
        assert (f + g)[i] == f[i];
      } else {
        assert (f + g)[i] == g[i - |f|];
      }
    }
  }

  lemma {:induction false} ContactRowsAppend(rows: seq<Connection>, row: Connection, u: UserId)
    ensures ContactRows(rows + [row], u) == ContactRows(rows, u) + (if IsContactRow(row, u) then [row] else [])
  {
    var last := if IsContactRow(row, u) then [row] else [];
    if rows == [] {
      assert rows + [row] == [row];
      assert [row][1..] == [];
    } else {
      var head := if IsContactRow(rows[0], u) then [rows[0]] else [];
      assert (rows + [row])[0] == rows[0];
      assert (rows + [row])[1..] == rows[1..] + [row];
      calc {
        ContactRows(rows + [row], u);
        head + ContactRows(rows[1..] + [row], u);
        { ContactRowsAppend(rows[1..], row, u); }
        head + (ContactRows(rows[1..], u) + last);
        (head + ContactRows(rows[1..], u)) + last;
        ContactRows(rows, u) + last;
      }
    }
  }

  /** The query result for no rows is empty, so together with SidebarAppend the list is fully determined. */
  lemma SidebarOfNoRows(u: UserId)
    ensures GetUsersForSidebar([], u) == SidebarData(0, [])
  {
  }
}
