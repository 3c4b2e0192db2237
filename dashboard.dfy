/**
 * The conversation index of `conversations`: one `(name, channel)` pair per
 * transcript file of the data folder.
 */
module Dashboard {
  import opened Wrappers
  import opened Transcripts

  /** One file of the data folder, in listing order, with the profile its record holds (if any). */
  datatype DirEntry = DirEntry(file: string, profile: Option<Profile>)

  /** One line of the index: the profile's name and the transcript's file name. */
  datatype ConversationRef = ConversationRef(name: string, channel: string)

  /** The names the index skips: the directory links and the two shared records. */
  predicate Reserved(file: string)
  {
    file == "." || file == ".." || file == "questions.json" || file == "users.json"
  }

  /** The name shown for a file: its profile's name, or "undefined" without a profile. */
  function DisplayName(d: DirEntry): string
  {
    if d.profile.Some? then d.profile.value.name else "undefined"
  }

  /** The index of a listing: one line per non-reserved file, in listing order. */
  function Index(ds: seq<DirEntry>): (r: seq<ConversationRef>)
    ensures |r| <= |ds|
    ensures forall c :: c in r <==>
      exists d :: d in ds && !Reserved(d.file) && c == ConversationRef(DisplayName(d), d.file)
  {
    if ds == [] then []
    else
      var init := ds[..|ds| - 1];
      var last := ds[|ds| - 1];
      assert ds == init + [last];
      if Reserved(last.file) then Index(init)
      else Index(init) + [ConversationRef(DisplayName(last), last.file)]
  }

  /** Appending a file appends its line exactly when the file is not reserved. */
  lemma IndexSnoc(init: seq<DirEntry>, last: DirEntry)
    ensures Index(init + [last]) ==
      if Reserved(last.file) then Index(init) else Index(init) + [ConversationRef(DisplayName(last), last.file)]
  {
    var ds := init + [last];
    assert ds[..|ds| - 1] == init;
    assert ds[|ds| - 1] == last;
  }

  /** A single file gives one line exactly when it is not reserved. */
  lemma IndexSingle(d: DirEntry)
    ensures Index([d]) == if Reserved(d.file) then [] else [ConversationRef(DisplayName(d), d.file)]
  {
    assert [d][..0] == [];
  }

  /**
   * `Index` distributes over concatenation, so with `IndexSingle` it holds
   * one line per non-reserved file, in listing order.
   */
  lemma {:induction false} IndexDistributes(a: seq<DirEntry>, b: seq<DirEntry>)
    ensures Index(a + b) == Index(a) + Index(b)
  {
    if b == [] {
      assert a + b == a;
    } else {
      var b' := b[..|b| - 1];
      var last := b[|b| - 1];
      assert b == b' + [last];
      assert a + b == (a + b') + [last];
      IndexSnoc(a + b', last);
      IndexSnoc(b', last);
      IndexDistributes(a, b');
    }
  }

  /** The loop of `conversations` over a directory listing. */
  method Conversations(ds: seq<DirEntry>) returns (content: seq<ConversationRef>)
    ensures content == Index(ds)
  {
    content := [];
    for i := 0 to |ds|
      invariant content == Index(ds[..i])
    {
      assert ds[..i + 1][..i] == ds[..i];
      var file := ds[i].file;
      if file == "." || file == ".." || file == "questions.json" || file == "users.json" {
        continue;
      }
      var name;
      if ds[i].profile.Some? {
        name := ds[i].profile.value.name;
      } else {
        name := "undefined";
      }
      content := content + [ConversationRef(name, file)];
    }
    assert ds[..|ds|] == ds;
  }
}
