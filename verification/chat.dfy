/** The chat request the text adapters send, and the two ways they fold the conversation
    history into a message list: copying each turn, or keeping "user" and renaming every
    other role to the backend's name for the model's side. */
module Chat {
  import opened Basics
  import opened ProviderInterface
  import opened Json

  /** The fields of a text request body that depend on the caller: the model, the token limit,
      a separate system prompt (Claude only) and the message list. The temperature is not
      modelled. */
  datatype ChatRequest = ChatRequest(model: string, maxTokens: int, system: Option<string>, messages: seq<Turn>)

  const UserRole := "user"
  const SystemRole := "system"

  /** `m.role === "user" ? "user" : other` on one turn, content untouched. */
  function RenameRole(t: Turn, other: string): Turn {
    Turn(if t.role == UserRole then UserRole else other, t.content)
  }

  /** `history.map((m) => ({ role: m.role === "user" ? "user" : other, content: m.content }))` */
  function RenameRoles(history: seq<Turn>, other: string): (r: seq<Turn>)
    ensures |r| == |history|
    ensures forall i | 0 <= i < |r| ::
      r[i].content == history[i].content &&
      (r[i].role == UserRole <==> history[i].role == UserRole || other == UserRole)
    ensures forall i | 0 <= i < |r| :: r[i].role == UserRole || r[i].role == other
  {
    seq(|history|, i requires 0 <= i < |history| => RenameRole(history[i], other))
  }

  /** Each turn is renamed on its own: renaming two histories one after the other is renaming
      their concatenation, so an earlier conversation renames the same however it continues. */
  lemma RenameRolesAppend(a: seq<Turn>, b: seq<Turn>, other: string)
    ensures RenameRoles(a + b, other) == RenameRoles(a, other) + RenameRoles(b, other)
  {
    var whole, left, right := RenameRoles(a + b, other), RenameRoles(a, other), RenameRoles(b, other);
    forall i | 0 <= i < |whole|
      ensures whole[i] == (left + right)[i]
    {
      if i < |a| {
        assert (a + b)[i] == a[i];
      } else {
        assert (a + b)[i] == b[i - |a|];
      }
    }
  }

  /** Renaming twice is renaming once: a history already in the backend's two roles passes
      through unchanged. */
  lemma RenameRolesIdempotent(history: seq<Turn>, other: string)
    ensures RenameRoles(RenameRoles(history, other), other) == RenameRoles(history, other)
  {
    var once := RenameRoles(history, other);
    var twice := RenameRoles(once, other);
    assert |twice| == |once|;
    forall i | 0 <= i < |once|
      ensures twice[i] == once[i]
    {
      assert twice[i] == RenameRole(once[i], other);
    }
  }

  /** `[first, ...middle, user(input)]`, or `[...middle, user(input)]` without a leading turn. */
  function Framed(first: Option<Turn>, middle: seq<Turn>, input: string): (r: seq<Turn>)
    ensures |r| == |middle| + (if first.Some? then 2 else 1)
    ensures first.Some? ==> r[0] == first.value && r[1..|r| - 1] == middle
    ensures first.None? ==> r[..|r| - 1] == middle
    ensures r[|r| - 1] == Turn(UserRole, input)
  {
    match first
    case Some(t) => [t] + middle + [Turn(UserRole, input)]
    case None => middle + [Turn(UserRole, input)]
  }

  /** `choices[0].message.content` of an OpenAI-style completion reply. */
  const ContentPath: seq<Step> := [Key("choices"), Index(0), Key("message"), Key("content")]

  const PromptTokensPath: seq<Step> := [Key("usage"), Key("prompt_tokens")]
  const CompletionTokensPath: seq<Step> := [Key("usage"), Key("completion_tokens")]
  const TotalTokensPath: seq<Step> := [Key("usage"), Key("total_tokens")]

  /** The usage of an OpenAI-style completion reply: each count read on its own, 0 when it is
      missing or 0. */
  function CompletionUsage(data: Json): (u: Usage)
    ensures Read(data, [Key("usage")]).None? || Read(data, [Key("usage")]) == Some(Null) ==> u == Usage(0, 0, 0)
    ensures data.Obj? && Lookup(data.members, "usage").Some? && !Lookup(data.members, "usage").value.Null? ==>
      var usage := Lookup(data.members, "usage").value;
      u == Usage(NumberOrZero(Prop(usage, Key("prompt_tokens"))),
                 NumberOrZero(Prop(usage, Key("completion_tokens"))),
                 NumberOrZero(Prop(usage, Key("total_tokens"))))
  {
    UsageRead(data, "prompt_tokens");
    UsageRead(data, "completion_tokens");
    UsageRead(data, "total_tokens");
    Usage(NumberOrZero(Read(data, PromptTokensPath)),
          NumberOrZero(Read(data, CompletionTokensPath)),
          NumberOrZero(Read(data, TotalTokensPath)))
  }

  /** `data.usage?.key`: nothing when `usage` is missing or `null`, and otherwise the member
      `key` of the `usage` object. */
  lemma UsageRead(data: Json, key: string)
    ensures Read(data, [Key("usage")]).None? || Read(data, [Key("usage")]) == Some(Null) ==>
      Read(data, [Key("usage"), Key(key)]).None?
    ensures data.Obj? && Lookup(data.members, "usage").Some? && !Lookup(data.members, "usage").value.Null? ==>
      Read(data, [Key("usage"), Key(key)]) == Prop(Lookup(data.members, "usage").value, Key(key))
  {
    var path := [Key("usage"), Key(key)];
    assert path[..1] == [Key("usage")];
    if Read(data, [Key("usage")]).None? {
      FollowMissingPrefix(Some(data), path, 1);
    } else if data.Obj? && Lookup(data.members, "usage").Some? && !Lookup(data.members, "usage").value.Null? {
      ReadTwo(data, "usage", key, Lookup(data.members, "usage").value);
    } else if Read(data, [Key("usage")]) == Some(Null) {
      assert [Key("usage")][1..] == [] && path[1..] == [Key(key)];
      assert !data.Null? && Prop(data, Key("usage")) == Some(Null);
      assert Follow(Some(data), path) == Follow(Some(Null), [Key(key)]);
    }
  }

  /** A reply without a `usage` object reports zero for all three counts. */
  lemma CompletionUsageMissing(data: Json)
    requires Read(data, [Key("usage")]).None?
    ensures CompletionUsage(data) == Usage(0, 0, 0)
  {
    FollowMissingPrefix(Some(data), PromptTokensPath, 1);
    FollowMissingPrefix(Some(data), CompletionTokensPath, 1);
    FollowMissingPrefix(Some(data), TotalTokensPath, 1);
  }

  /** Each count is the number under its own key of the reply's `usage` object, or 0 when that key
      is missing or not a number; no count depends on the other two. */
  lemma CompletionUsageOfUsage(data: Json, usage: Json)
    requires data.Obj? && Lookup(data.members, "usage") == Some(usage) && !usage.Null?
    ensures CompletionUsage(data) == Usage(NumberOrZero(Prop(usage, Key("prompt_tokens"))),
                                           NumberOrZero(Prop(usage, Key("completion_tokens"))),
                                           NumberOrZero(Prop(usage, Key("total_tokens"))))
    ensures Prop(usage, Key("total_tokens")).None? ==> CompletionUsage(data).totalTokens == 0
  {
    ReadTwo(data, "usage", "prompt_tokens", usage);
    ReadTwo(data, "usage", "completion_tokens", usage);
    ReadTwo(data, "usage", "total_tokens", usage);
  }

  /** The total is read, not computed: a reply whose `usage` lacks `total_tokens` reports a total
      of 0 whatever its other two counts are. */
  lemma CompletionUsageTotalIsRead(p: int, c: int)
    requires p != 0 && c != 0
    ensures var data := Obj([Member("usage", Obj([Member("prompt_tokens", Num(p)), Member("completion_tokens", Num(c))]))]);
      CompletionUsage(data) == Usage(p, c, 0)
  {
    var usage := Obj([Member("prompt_tokens", Num(p)), Member("completion_tokens", Num(c))]);
    var data := Obj([Member("usage", usage)]);
    assert Lookup(data.members, "usage") == Some(usage);
    ReadTwo(data, "usage", "prompt_tokens", usage);
    ReadTwo(data, "usage", "completion_tokens", usage);
    ReadTwo(data, "usage", "total_tokens", usage);
    assert Lookup(usage.members, "prompt_tokens") == Some(Num(p));
    assert Lookup(usage.members, "completion_tokens") == Some(Num(c));
    assert Lookup(usage.members, "total_tokens") == None;
  }
}
