/**
 * The channel list of the React dashboard (`reference.tsx`).  The component
 * never edits a channel in place: `toggleChannel` and `updateChannelProfile`
 * map the list to a new one with spread-updated records, and
 * `enabledChannels` filters it.
 */
module Dashboard {
  import opened Wrappers

  datatype ChannelKind = Outlook | Slack

  datatype Profile = Profile(audience: string, dataSources: seq<string>)

  datatype Channel = Channel(id: string, name: string, kind: ChannelKind, enabled: bool, profile: Option<Profile>)

  /** The `useState` initial value. */
  const InitialChannels: seq<Channel> := [
    Channel("1", "Customer Support", Slack, true,
            Some(Profile("Customer Success Team", ["Support Tickets", "Usage Analytics"]))),
    Channel("2", "sales@company.com", Outlook, true,
            Some(Profile("Sales Team", ["CRM Data", "Lead Scores"]))),
    Channel("3", "Engineering Updates", Slack, false, None),
    Channel("4", "team@company.com", Outlook, true, None)
  ]

  /** `toggleChannel(id)`: every channel with that id has `enabled` flipped. */
  function Toggle(chs: seq<Channel>, id: string): (r: seq<Channel>)
    ensures |r| == |chs|
    ensures forall i :: 0 <= i < |r| ==>
      r[i].(enabled := chs[i].enabled) == chs[i] && (r[i].enabled <==> (chs[i].enabled != (chs[i].id == id)))
  {
    if chs == [] then []
    else
      var c := chs[|chs| - 1];
      Toggle(chs[..|chs| - 1], id) + [if c.id == id then c.(enabled := !c.enabled) else c]
  }

  /** `updateChannelProfile(id, profile)`: every channel with that id gets `profile`. */
  function SetProfile(chs: seq<Channel>, id: string, p: Profile): (r: seq<Channel>)
    ensures |r| == |chs|
    ensures forall i :: 0 <= i < |r| ==>
      r[i].(profile := chs[i].profile) == chs[i] && r[i].profile == (if chs[i].id == id then Some(p) else chs[i].profile)
  {
    if chs == [] then []
    else
      var c := chs[|chs| - 1];
      SetProfile(chs[..|chs| - 1], id, p) + [if c.id == id then c.(profile := Some(p)) else c]
  }

  /** `enabledChannels`: the enabled channels, in list order. */
  function Enabled(chs: seq<Channel>): (r: seq<Channel>)
    ensures |r| <= |chs|
    ensures forall i :: 0 <= i < |r| ==> r[i].enabled
  {
    if chs == [] then []
    else
      var c := chs[|chs| - 1];
      var init := Enabled(chs[..|chs| - 1]);
      if c.enabled then init + [c] else init
  }

  /** A channel is in `enabledChannels` exactly when it is in the list and enabled. */
  lemma {:induction false} EnabledMembers(chs: seq<Channel>, c: Channel)
    ensures c in Enabled(chs) <==> c in chs && c.enabled
  {
    if chs != [] {
      var init := chs[..|chs| - 1];
      assert chs == init + [chs[|chs| - 1]];
      EnabledMembers(init, c);
    }
  }

  /** The "Active Channels" figure. */
  function ActiveCount(chs: seq<Channel>): nat {
    |Enabled(chs)|
  }

  /** Toggling the same id twice gives back the original list. */
  lemma ToggleTwice(chs: seq<Channel>, id: string)
    ensures Toggle(Toggle(chs, id), id) == chs
  {
    var r := Toggle(Toggle(chs, id), id);
    forall i | 0 <= i < |chs|
      ensures r[i] == chs[i]
    {
    }
  }

  /** With no channel carrying the id, both updates return the list unchanged. */
  lemma NoMatchUnchanged(chs: seq<Channel>, id: string, p: Profile)
    requires forall i :: 0 <= i < |chs| ==> chs[i].id != id
    ensures Toggle(chs, id) == chs
    ensures SetProfile(chs, id, p) == chs
  {
    var t, s := Toggle(chs, id), SetProfile(chs, id, p);
    forall i | 0 <= i < |chs|
      ensures t[i] == chs[i] && s[i] == chs[i]
    {
    }
  }

  /** Setting the same profile twice is the same as setting it once. */
  lemma SetProfileIdempotent(chs: seq<Channel>, id: string, p: Profile)
    ensures SetProfile(SetProfile(chs, id, p), id, p) == SetProfile(chs, id, p)
  {
    var once := SetProfile(chs, id, p);
    var twice := SetProfile(once, id, p);
    forall i | 0 <= i < |chs|
      ensures twice[i] == once[i]
    {
    }
  }

  /** Filtering distributes over concatenation: the order of the list is kept. */
  lemma {:induction false} EnabledAppend(a: seq<Channel>, b: seq<Channel>)
    ensures Enabled(a + b) == Enabled(a) + Enabled(b)
  {
    if b == [] {
      assert a + b == a;
    } else {
      var init, c := b[..|b| - 1], b[|b| - 1];
      assert (a + b)[..|a + b| - 1] == a + init;
      EnabledAppend(a, init);
    }
  }

  /** Neither update touches `enabled` outside a toggle, so profiles do not change the count. */
  lemma SetProfileKeepsEnabled(chs: seq<Channel>, id: string, p: Profile)
    ensures |Enabled(SetProfile(chs, id, p))| == |Enabled(chs)|
  {
    EnabledCountsSame(chs, SetProfile(chs, id, p));
  }

  lemma {:induction false} EnabledCountsSame(xs: seq<Channel>, ys: seq<Channel>)
    requires |xs| == |ys| && forall i :: 0 <= i < |xs| ==> xs[i].enabled == ys[i].enabled
    ensures |Enabled(xs)| == |Enabled(ys)|
  {
    if xs != [] {
      EnabledCountsSame(xs[..|xs| - 1], ys[..|ys| - 1]);
    }
  }

  /** Toggling the one channel with a given id moves the count by exactly one. */
  lemma ToggleUniqueCount(chs: seq<Channel>, id: string, k: nat)
    requires k < |chs| && chs[k].id == id
    requires forall i :: 0 <= i < |chs| && i != k ==> chs[i].id != id
    ensures ActiveCount(Toggle(chs, id)) == if chs[k].enabled then ActiveCount(chs) - 1 else ActiveCount(chs) + 1
  {
    var t := Toggle(chs, id);
    assert forall i :: 0 <= i < |chs| && i != k ==> chs[i].enabled == t[i].enabled;
    CountsDifferAt(chs, t, k);
  }

  /** Two lists that agree on `enabled` everywhere but at `k` have counts one apart. */
  lemma {:induction false} CountsDifferAt(xs: seq<Channel>, ys: seq<Channel>, k: nat)
    requires |xs| == |ys| && k < |xs| && xs[k].enabled != ys[k].enabled
    requires forall i :: 0 <= i < |xs| && i != k ==> xs[i].enabled == ys[i].enabled
    ensures ActiveCount(ys) == if xs[k].enabled then ActiveCount(xs) - 1 else ActiveCount(xs) + 1
  {
    var n := |xs|;
    var xi, yi := xs[..n - 1], ys[..n - 1];
    CountLast(xs);
    CountLast(ys);
    if k == n - 1 {
      EnabledCountsSame(xi, yi);
    } else {
      assert xi[k] == xs[k] && yi[k] == ys[k];
      CountsDifferAt(xi, yi, k);
    }
  }

  /** The count of a non-empty list is that of all but its last channel, plus one if the last is enabled. */
  lemma CountLast(chs: seq<Channel>)
    requires chs != []
    ensures ActiveCount(chs) == ActiveCount(chs[..|chs| - 1]) + if chs[|chs| - 1].enabled then 1 else 0
  {
  }

  /** Four channels with ids "1" to "4", three of them enabled. */
  lemma InitialState()
    ensures |InitialChannels| == 4
    ensures forall i :: 0 <= i < 4 ==> InitialChannels[i].id == [['1', '2', '3', '4'][i]]
    ensures ActiveCount(InitialChannels) == 3
    ensures Enabled(InitialChannels) == [InitialChannels[0], InitialChannels[1], InitialChannels[3]]
  {
    var c := InitialChannels;
    assert c == [c[0], c[1], c[2], c[3]];
    EnabledOfFour(c[0], c[1], c[2], c[3]);
  }

  /** The filter on a list of four where only the third is disabled. */
  lemma EnabledOfFour(a: Channel, b: Channel, x: Channel, d: Channel)
    requires a.enabled && b.enabled && !x.enabled && d.enabled
    ensures Enabled([a, b, x, d]) == [a, b, d]
  {
    assert [a][..0] == [] && Enabled([a]) == [a];
    assert [a, b][..1] == [a] && Enabled([a, b]) == [a, b];
    assert [a, b, x][..2] == [a, b] && Enabled([a, b, x]) == [a, b];
    assert [a, b, x, d][..3] == [a, b, x];
  }
}
