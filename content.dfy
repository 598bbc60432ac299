/** A piece of content written by a psychologist: a title that may not be
    blank, a body, the author and the creation time. `update` overwrites
    title and body in place. */
module Content {
  import opened Common

  const TitleMsg: string := "Title cannot be empty"

  datatype ContentData = ContentData(id: Uuid, title: string, body: string, authorId: Uuid, createdAt: DateTime)

  /** `not title.strip()`. */
  predicate Blank(title: string) { Strip(title) == [] }

  /** A blank title is one made only of whitespace. */
  lemma BlankIffAllSpace(title: string)
    ensures Blank(title) <==> forall i :: 0 <= i < |title| ==> IsSpace(title[i])
  {
    if !Blank(title) {
      var l := StripLeft(title);
      assert l != [];
      assert !IsSpace(title[|title| - |l|]);
    }
  }

  /** A title of separator characters is blank, as `str.strip()` sees it. */
  lemma SeparatorTitleRefused(body: string, authorId: Uuid, createdAt: Option<DateTime>,
                              now: DateTime, id: Option<Uuid>, generated: Uuid)
    ensures NewContentData("\U{001C}\U{001F}", body, authorId, createdAt, now, id, generated) == Err(TitleMsg)
  {
    var t := "\U{001C}\U{001F}";
    assert IsSpace(t[0]) && t[1..] == "\U{001F}";
    assert IsSpace(t[1..][0]) && t[1..][1..] == [];
    assert StripLeft(t) == [];
    assert Blank(t);
  }

  /** `Content(title, body, author_id, created_at=None, id=None)`: a blank
      title is refused; a missing creation time is the current time. */
  function NewContentData(title: string, body: string, authorId: Uuid, createdAt: Option<DateTime>,
                          now: DateTime, id: Option<Uuid>, generated: Uuid): (r: Result<ContentData>)
    ensures r.Err? <==> Blank(title)
    ensures r.Err? ==> r.msg == TitleMsg
    ensures r.Ok? ==> r.value.title == title && r.value.body == body && r.value.authorId == authorId &&
                      r.value.id == ResolveId(id, generated) &&
                      r.value.createdAt == (if createdAt.Some? then createdAt.value else now)
  {
    if Blank(title) then Err(TitleMsg)
    else Ok(ContentData(ResolveId(id, generated), title, body, authorId,
                        if createdAt.Some? then createdAt.value else now))
  }

  /** `update(title=None, body=None)`: a given title must not be blank and
      replaces the old one; a given body replaces the old one. */
  function UpdateData(c: ContentData, title: Option<string>, body: Option<string>): (r: Result<ContentData>)
  {
    if title.Some? && Blank(title.value) then Err(TitleMsg)
    else
      var t := if title.Some? then title.value else c.title;
      var b := if body.Some? then body.value else c.body;
      Ok(c.(title := t, body := b))
  }

  /** What `update` does: it fails exactly on a blank new title; otherwise
      it sets what was given, keeps what was not, and never touches the
      author, the creation time or the id. */
  lemma UpdateSpec(c: ContentData, title: Option<string>, body: Option<string>)
    ensures UpdateData(c, title, body).Err? <==> title.Some? && Blank(title.value)
    ensures UpdateData(c, None, None) == Ok(c)
    ensures UpdateData(c, title, body).Ok? ==>
      var d := UpdateData(c, title, body).value;
      d.id == c.id && d.authorId == c.authorId && d.createdAt == c.createdAt &&
      d.title == (if title.Some? then title.value else c.title) &&
      d.body == (if body.Some? then body.value else c.body)
  {
  }

  /** A content item whose title is not blank keeps that invariant through
      every update. */
  lemma UpdateKeepsTitle(c: ContentData, title: Option<string>, body: Option<string>)
    requires !Blank(c.title)
    requires UpdateData(c, title, body).Ok?
    ensures !Blank(UpdateData(c, title, body).value.title)
  {
  }

  /** The entity, whose title and body `update` overwrites. */
  class Content {
    const id: Uuid
    var title: string
    var body: string
    const authorId: Uuid
    const createdAt: DateTime

    function Data(): ContentData
      reads this
    {
      ContentData(id, title, body, authorId, createdAt)
    }

    constructor (data: ContentData)
      ensures Data() == data
    {
      id := data.id;
      title := data.title;
      body := data.body;
      authorId := data.authorId;
      createdAt := data.createdAt;
    }

    /** `update`: on a blank title nothing changes. */
    method Update(newTitle: Option<string>, newBody: Option<string>) returns (r: Outcome)
      modifies this
      ensures UpdateData(old(Data()), newTitle, newBody).Ok? ==>
        r == Done && Data() == UpdateData(old(Data()), newTitle, newBody).value
      ensures UpdateData(old(Data()), newTitle, newBody).Err? ==>
        r == Raised(TitleMsg) && Data() == old(Data())
    {
      if newTitle.Some? {
        if Blank(newTitle.value) {
          return Raised(TitleMsg);
        }
        title := newTitle.value;
      }
      if newBody.Some? {
        body := newBody.value;
      }
      return Done;
    }
  }
}
