/**
 * The conversation-history context both the LLM agent and the executor put
 * into their prompts: one line per user or assistant entry of a recent window.
 */
module History {
  import opened State
  import opened StringOps

  const UserPrefix := "Người dùng: "
  const AssistantPrefix := "MedicalBot: "

  /** The prompt line for one entry; entries of any other role contribute nothing. */
  function Line(e: Entry): string {
    if e.role == "user" then UserPrefix + e.content + "\n"
    else if e.role == "assistant" then AssistantPrefix + e.content + "\n"
    else ""
  }

  /** The lines of `entries`, in order. */
  function Render(entries: seq<Entry>): string
    decreases |entries|
  {
    if entries == [] then ""
    else Render(entries[..|entries| - 1]) + Line(entries[|entries| - 1])
  }

  /** The history-context loop over the last `window` entries of `history`. */
  method BuildContext(history: seq<Entry>, window: nat) returns (ctx: string)
    ensures ctx == Render(Last(history, window))
  {
    var recent := Last(history, window);
    ctx := "";
    var i := 0;
    while i < |recent|
      invariant 0 <= i <= |recent|
      invariant ctx == Render(recent[..i])
    {
      var item := recent[i];
      if item.role == "user" {
        ctx := ctx + UserPrefix + item.content + "\n";
      } else if item.role == "assistant" {
        ctx := ctx + AssistantPrefix + item.content + "\n";
      }
      assert recent[..i + 1][..i] == recent[..i];
      i := i + 1;
    }
    assert recent[..i] == recent;
  }

  /** Rendering distributes over concatenation of histories. */
  lemma {:induction false} RenderAppend(a: seq<Entry>, b: seq<Entry>)
    ensures Render(a + b) == Render(a) + Render(b)
    decreases |b|
  {
    if b == [] {
      assert a + b == a;
    } else {
      var b' := b[..|b| - 1];
      var last := b[|b| - 1];
      assert (a + b)[..|a + b| - 1] == a + b';
      assert (a + b)[|a + b| - 1] == last;
      calc {
        Render(a + b);
        Render(a + b') + Line(last);
        { RenderAppend(a, b'); }
        Render(a) + Render(b') + Line(last);
      }
    }
  }

  predicate IsSpoken(e: Entry) {
    e.role == "user" || e.role == "assistant"
  }

  /** The user and assistant entries of `entries`, in order. */
  function SpokenOnly(entries: seq<Entry>): (r: seq<Entry>)
    ensures forall k :: 0 <= k < |r| ==> IsSpoken(r[k])
    decreases |entries|
  {
    if entries == [] then []
    else
      var last := entries[|entries| - 1];
      SpokenOnly(entries[..|entries| - 1]) + (if IsSpoken(last) then [last] else [])
  }

  /** Entries whose role is neither user nor assistant are skipped: dropping them changes nothing. */
  lemma {:induction false} RenderSkipsOtherRoles(entries: seq<Entry>)
    ensures Render(entries) == Render(SpokenOnly(entries))
    decreases |entries|
  {
    if entries != [] {
      var init := entries[..|entries| - 1];
      var last := entries[|entries| - 1];
      RenderSkipsOtherRoles(init);
      RenderAppend(SpokenOnly(init), if IsSpoken(last) then [last] else []);
      assert Render([last]) == Line(last) by {
        assert [last][..0] == [];
      }
    }
  }
}
