/** The records of the `/list` response: one per file of the preview
    directory, pointing at the URL the preview handler serves it under. */
module Listing {
  import opened Strings
  import Resize
  import Server

  /** One element of the JSON array: `{src, width, height}`. */
  datatype Entry = Entry(src: string, width: nat, height: nat)

  /** The URL path prefix put in front of every preview's file name. */
  const SrcPrefix: string := "/preview/"

  /** The record for the preview file `name` whose image has size `size`. */
  function MakeEntry(name: string, size: Resize.Size): (e: Entry)
    ensures HasPrefix(e.src, SrcPrefix) && TrimPrefix(e.src, SrcPrefix) == name
    ensures |e.src| == |SrcPrefix| + |name|
    ensures e.width == size.width && e.height == size.height
  {
    TrimPrefixOfConcat(SrcPrefix, name);
    Entry(SrcPrefix + name, size.width, size.height)
  }

  /** Dispatching a path equal to a record's `src` (with any method but
      OPTIONS) reaches the preview handler for the file the record describes. */
  lemma {:induction false} EntrySrcServesPreview(name: string, size: Resize.Size, verb: string, h: Server.Header)
    requires verb != Server.OptionsMethod
    ensures Server.ServeHTTP(verb, MakeEntry(name, size).src, h).route == Server.Preview(name)
  {
    Server.PreviewPathServesName(verb, name, h);
  }

  /** The record of the 1600 x 1200 photo `a.jpg` once its preview is made. */
  lemma ExampleEntry()
    ensures Resize.PreviewSize(Resize.Size(1600, 1200)) == Resize.Resized(Resize.Size(800, 600))
    ensures MakeEntry("a.jpg", Resize.Size(800, 600)) == Entry("/preview/a.jpg", 800, 600)
  {
  }
}
