/** What a harvest's consumers get of a file, in the file's own bytes: the
    harvest's chunks joined to those the client reads a file in. */
module Delivery {
  import opened Wire
  import opened Harvest
  import Client

  /** Where the chunks are those a file is read in, what a body delivers is the
      file from its front, and the file where its end was seen. */
  lemma BodyIsFile(s: State, run: seq<Step>, i: nat, file: Bytes)
    requires Begins(s) && Possible(s, run) && i < |s.files|
    ensures var b := Ran(s, run).bodies;
            && |b| == |s.files|
            && (Client.Chunks(s.files[i], file) ==>
                  && (b[i].Open? || b[i].Ended? ==> Client.Flat(b[i].got) <= file)
                  && (b[i].Ended? && b[i].whole ==> Client.Flat(b[i].got) == file))
  {
    hide Begins, Possible, Ran;
    BodiesWhole(s, run, i);
    var b := Ran(s, run).bodies[i];
    if b.Open? || b.Ended? {
      FlatPrefix(b.got, s.files[i]);
    }
  }

  lemma {:induction false} FlatPrefix(got: seq<Bytes>, chunks: seq<Bytes>)
    requires got <= chunks
    ensures Client.Flat(got) <= Client.Flat(chunks)
    decreases |chunks|
  {
    if |got| < |chunks| {
      FlatPrefix(got, chunks[..|chunks| - 1]);
    } else {
      assert got == chunks;
    }
  }
}
