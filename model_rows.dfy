/**
 * Saved model instances as the serializers touch them: a row of column values that
 * `setattr` overwrites one attribute at a time, and a row with one nullable foreign key to
 * another row (a franchise and its owner, a branch or a restaurant and its representative).
 * Column values are JSON values; `save()` writes the row as it stands and has no other effect
 * the model needs.
 */
module ModelRows {
  import opened Wrappers
  import opened Json

  /** The columns of a parent row and of the nested row it links to. */
  datatype Rows = Rows(parent: map<string, Json>, nested: map<string, Json>)

  /** A stored parent row and its linked row, `None` when the foreign key is null. */
  datatype Stored = Stored(own: map<string, Json>, link: Option<map<string, Json>>)

  class Row {
    var fields: map<string, Json>

    constructor (fields: map<string, Json>)
      ensures this.fields == fields
    {
      this.fields := fields;
    }

    /**
     * `for attr, value in data.items(): setattr(row, attr, value)`: every supplied attribute
     * takes its new value, every other attribute keeps its old one, and none disappears.
     */
    method SetAttributes(data: map<string, Json>)
      modifies this
      ensures fields == old(fields) + data
      ensures fields.Keys == old(fields).Keys + data.Keys
      ensures forall k :: k in data ==> fields[k] == data[k]
      ensures forall k :: k in old(fields) && k !in data ==> fields[k] == old(fields)[k]
    {
      var pending := data.Keys;
      while pending != {}
        invariant pending <= data.Keys
        invariant fields == old(fields) + (data - pending)
        decreases pending
      {
        var attr :| attr in pending;
        assert (old(fields) + (data - pending))[attr := data[attr]] == old(fields) + (data - (pending - {attr}));
        fields := fields[attr := data[attr]];
        pending := pending - {attr};
      }
      assert data - {} == data;
    }
  }

  /** A row and the row its foreign key points to, `None` when the key is null. */
  class Linked {
    const own: Row
    var link: Row?

    /** The two rows are different rows: they live in different tables. */
    predicate Valid()
      reads this
    {
      link != own
    }

    constructor (own: Row, link: Row?)
      requires link != own
      ensures this.own == own && this.link == link && Valid()
    {
      this.own := own;
      this.link := link;
    }

    /** `instance.<foreign key> = row`. */
    method SetLink(row: Row)
      requires row != own
      modifies this
      ensures link == row && Valid()
    {
      link := row;
    }
  }

  /** The stored rows of `instance`, read before or after an update. */
  function StoredOf(instance: Linked): Stored
    reads instance, instance.own, instance.link
  {
    Stored(instance.own.fields, if instance.link == null then None else Some(instance.link.fields))
  }
}
