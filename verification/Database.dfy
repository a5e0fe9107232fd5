/** The table as a mutable object: what the handlers and commands of the server share. */
module Database {
  import opened Application

  /** The ids of the rows a statement changes or removes. */
  function Selected(w: Write, rows: Table): set<int> {
    set id | id in rows && Selects(w, rows[id])
  }

  lemma {:induction false} SomeMember<T>(s: set<T>) returns (x: T)
    requires s != {}
    ensures x in s
  {
    x :| x in s;
  }

  class Connection {
    var rows: Table

    constructor ()
      ensures rows == map[]
    {
      rows := map[];
    }

    /** One statement; `affected` is the number of rows it selects. */
    method Execute(w: Write) returns (affected: nat)
      modifies this
      ensures rows == Apply(w, old(rows))
      ensures affected == |Selected(w, old(rows))|
    {
      affected := |Selected(w, rows)|;
      rows := Apply(w, rows);
    }
  }
}
