/**
 * The `shared_data` dictionary that the listener thread publishes into and the
 * `/metadata` route reads from.  The dictionary is modelled as it is: a map from
 * string keys to values, where a value is either a picture (for "img") or text.
 */
module Store {
  import opened Base

  const PLACEHOLDER_WIDTH: nat := 400
  const PLACEHOLDER_HEIGHT: nat := 200
  const PLACEHOLDER_COLOR: string := "blue"

  /** A bitmap: its dimensions and an opaque description of its pixels. */
  datatype Image = Image(width: nat, height: nat, pixels: Pixels)

  /** Where an image's pixels come from. */
  datatype Pixels =
    | Solid(color: string)     // `Image.new(..., color=...)`
    | Decoded(id: nat)         // a cover decoded from downloaded bytes
    | Fitted(source: Image)    // `ImageOps.fit` of another image

  /** A complete "now playing" bundle: what the three dictionary entries hold together. */
  datatype Snapshot = Snapshot(img: Image, author: string, track: string)

  /** A value stored under a key of `shared_data`. */
  datatype Value = Picture(image: Image) | Text(text: string)

  /** The body of the `/metadata` response. */
  datatype Reply = Reply(author: Value, track: Value)

  /** What `shared_data` holds at import time: a blue 400x200 image and placeholder text. */
  function Placeholder(): (s: Snapshot)
    ensures s.img.width == 400 && s.img.height == 200 && s.img.pixels == Solid("blue")
    ensures s.author == "Author" && s.track == "Track"
  {
    Snapshot(Image(PLACEHOLDER_WIDTH, PLACEHOLDER_HEIGHT, Solid(PLACEHOLDER_COLOR)), "Author", "Track")
  }

  /** The dictionary holds exactly the three keys, each with a value of the right kind. */
  predicate WellFormed(d: map<string, Value>)
  {
    && d.Keys == {"img", "author", "track"}
    && d["img"].Picture?
    && d["author"].Text?
    && d["track"].Text?
  }

  /** The dictionary that holds snapshot `s`. */
  function Entries(s: Snapshot): (d: map<string, Value>)
    ensures WellFormed(d)
    ensures d["img"] == Picture(s.img) && d["author"] == Text(s.author) && d["track"] == Text(s.track)
  {
    map["img" := Picture(s.img), "author" := Text(s.author), "track" := Text(s.track)]
  }

  /** The snapshot a well-formed dictionary holds; it determines the dictionary completely. */
  function Read(d: map<string, Value>): (s: Snapshot)
    requires WellFormed(d)
    ensures Entries(s) == d
  {
    var s := Snapshot(d["img"].image, d["author"].text, d["track"].text);
    assert Entries(s).Keys == d.Keys;
    s
  }

  /** Reading back the dictionary of a snapshot gives that snapshot. */
  lemma ReadEntries(s: Snapshot)
    ensures Read(Entries(s)) == s
  {
  }

  class SharedData {
    var entries: map<string, Value>

    predicate Valid()
      reads this
    {
      WellFormed(entries)
    }

    /** The snapshot readers see. */
    function Current(): Snapshot
      reads this
      requires Valid()
    {
      Read(entries)
    }

    /** Module initialisation of `shared_data`. */
    constructor ()
      ensures Valid() && Current() == Placeholder()
      ensures entries == Entries(Placeholder())
    {
      entries := map["img" := Picture(Image(PLACEHOLDER_WIDTH, PLACEHOLDER_HEIGHT, Solid(PLACEHOLDER_COLOR))),
                     "author" := Text("Author"),
                     "track" := Text("Track")];
    }

    /**
     * The `with lock:` block of the listener: the three entries are overwritten
     * together, as one atomic step.  Readers see all of `s` and nothing of the old snapshot.
     */
    method Publish(s: Snapshot)
      requires Valid()
      modifies this
      ensures Valid() && Current() == s
      ensures entries == Entries(s)
    {
      entries := entries["img" := Picture(s.img)]["author" := Text(s.author)]["track" := Text(s.track)];
    }

    /**
     * The `/metadata` route: `author` and `track`, each with its fallback.  On a
     * well-formed dictionary the fallbacks never apply and the reply is exactly the
     * stored author and track.
     */
    method Metadata() returns (r: Reply)
      ensures Valid() ==> r == Reply(Text(Current().author), Text(Current().track))
      ensures "author" !in entries ==> r.author == Text("Unknown Author")
      ensures "track" !in entries ==> r.track == Text("Unknown Track")
    {
      r := Reply(Get(entries, "author", Text("Unknown Author")), Get(entries, "track", Text("Unknown Track")));
    }
  }
}
