/** The timeline item model: its statuses, its `publish` step and its listing order. */
module TimelineModels {
  import opened Js

  /** A timestamp, opaque apart from its order. */
  type Time = int

  /** The stored status codes `'DRAFT'` and `'PUBLISHED'`. */
  datatype Status = Draft | Published

  const StatusChoices: seq<Status> := [Draft, Published]
  const DefaultStatus := Draft

  /** One row of the item table. `author` is the author's user id. */
  datatype Item = Item(id: int, author: int, title: string, content: string,
                       status: Status, createdAt: Time, publishedAt: Option<Time>)

  /** The row after `publish` at time `now`: an unpublished item becomes
      published and is stamped; a published one is left exactly as it was. */
  function PublishedRow(it: Item, now: Time): (r: Item)
    ensures r.status == Published
    ensures r.id == it.id && r.author == it.author && r.title == it.title
            && r.content == it.content && r.createdAt == it.createdAt
    ensures it.status == Published ==> r == it
    ensures it.status != Published ==> r.publishedAt == Some(now)
  {
    if it.status != Published then it.(status := Published, publishedAt := Some(now)) else it
  }

  /** Publishing a second time changes nothing, not even the stamp. */
  lemma PublishIdempotent(it: Item, t1: Time, t2: Time)
    ensures PublishedRow(PublishedRow(it, t1), t2) == PublishedRow(it, t1)
  {
  }

  class TimelineItem {
    var id: int
    var author: int
    var title: string
    var content: string
    var status: Status
    var createdAt: Time
    var publishedAt: Option<Time>

    /** A freshly saved item: not yet stamped as published. */
    constructor (id: int, author: int, title: string, content: string, status: Status, createdAt: Time)
      ensures Row() == Item(id, author, title, content, status, createdAt, None)
    {
      this.id, this.author, this.title, this.content := id, author, title, content;
      this.status, this.createdAt, this.publishedAt := status, createdAt, None;
    }

    /** An existing row, loaded from the table. */
    constructor Load(row: Item)
      ensures Row() == row
    {
      id, author, title, content := row.id, row.author, row.title, row.content;
      status, createdAt, publishedAt := row.status, row.createdAt, row.publishedAt;
    }

    function Row(): Item
      reads this
    {
      Item(id, author, title, content, status, createdAt, publishedAt)
    }

    method Publish(now: Time)
      modifies this
      ensures Row() == PublishedRow(old(Row()), now)
    {
      if status != Published {
        status := Published;
        publishedAt := Some(now);
      }
    }
  }

  /** `ordering = ['-published_at', '-created_at']`: may `a` be listed before
      `b`? Later publication first, then later creation; an item without a
      publication time is listed after every item that has one. */
  predicate ListedBefore(a: Item, b: Item) {
    match (a.publishedAt, b.publishedAt)
    case (Some(x), Some(y)) => x > y || (x == y && a.createdAt >= b.createdAt)
    case (Some(_), None) => true
    case (None, Some(_)) => false
    case (None, None) => a.createdAt >= b.createdAt
  }

  /** The listing order is a total preorder. */
  lemma ListedBeforeIsTotalPreorder(a: Item, b: Item, c: Item)
    ensures ListedBefore(a, a)
    ensures ListedBefore(a, b) || ListedBefore(b, a)
    ensures ListedBefore(a, b) && ListedBefore(b, c) ==> ListedBefore(a, c)
  {
  }

  /** A sequence of rows in the default listing order. */
  predicate InListingOrder(s: seq<Item>) {
    forall i, j :: 0 <= i < j < |s| ==> ListedBefore(s[i], s[j])
  }
}
