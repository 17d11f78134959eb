/** Message handlers and the registry that maps a queue and a message name
    to the handler for them (messaging/rabbitmq/module.go). */
module HandlerRegistry {

  /** A `MessageHandler` as the registry and the consumers see it: an
      identity, its `Properties()` and the name of the Go type that
      `GetMessageType()` returns. Its `Handle` behaviour is not modelled. */
  datatype Handler = Handler(id: string, queueName: string, messageName: string, messageType: string)

  /** The registry key `"<queue>-<message>"`. */
  function Key(queueName: string, messageName: string): string
  {
    queueName + "-" + messageName
  }

  function HandlerKey(h: Handler): string
  {
    Key(h.queueName, h.messageName)
  }

  /** The registry after inserting the handlers in list order. */
  function Registry(handlers: seq<Handler>): map<string, Handler>
  {
    if |handlers| == 0 then map[]
    else
      var last := handlers[|handlers| - 1];
      Registry(handlers[..|handlers| - 1])[HandlerKey(last) := last]
  }

  /** `MapMessageHandlers`. */
  method MapMessageHandlers(handlers: seq<Handler>) returns (m: map<string, Handler>)
    ensures m == Registry(handlers)
    ensures forall i | 0 <= i < |handlers| :: HandlerKey(handlers[i]) in m
  {
    m := map[];
    var i := 0;
    while i < |handlers|
      invariant 0 <= i <= |handlers|
      invariant m == Registry(handlers[..i])
    {
      assert handlers[..i + 1][..i] == handlers[..i];
      m := m[HandlerKey(handlers[i]) := handlers[i]];
      i := i + 1;
    }
    assert handlers[..i] == handlers;
    RegistryKeys(handlers);
  }

  /** The keys are exactly the handlers' keys. */
  lemma {:induction false} RegistryKeys(handlers: seq<Handler>)
    ensures forall i | 0 <= i < |handlers| :: HandlerKey(handlers[i]) in Registry(handlers)
    ensures forall k | k in Registry(handlers) :: exists i | 0 <= i < |handlers| :: HandlerKey(handlers[i]) == k
  {
    if |handlers| > 0 {
      var init := handlers[..|handlers| - 1];
      RegistryKeys(init);
      forall k | k in Registry(handlers)
        ensures exists i | 0 <= i < |handlers| :: HandlerKey(handlers[i]) == k
      {
        if k != HandlerKey(handlers[|handlers| - 1]) {
          assert k in Registry(init);
          var j :| 0 <= j < |init| && HandlerKey(init[j]) == k;
          assert handlers[j] == init[j];
        }
      }
    }
  }

  /** Last write wins: each key holds the latest handler with that key. */
  lemma {:induction false} RegistryLastWins(handlers: seq<Handler>, i: int)
    requires 0 <= i < |handlers|
    requires forall j | i < j < |handlers| :: HandlerKey(handlers[j]) != HandlerKey(handlers[i])
    ensures HandlerKey(handlers[i]) in Registry(handlers)
    ensures Registry(handlers)[HandlerKey(handlers[i])] == handlers[i]
  {
    if i < |handlers| - 1 {
      var init := handlers[..|handlers| - 1];
      assert forall j | i < j < |init| :: init[j] == handlers[j];
      RegistryLastWins(init, i);
    }
  }

  /** Every stored handler is one of the inputs, stored under its own key. */
  lemma {:induction false} RegistryHoldsInputs(handlers: seq<Handler>, k: string)
    requires k in Registry(handlers)
    ensures HandlerKey(Registry(handlers)[k]) == k
    ensures Registry(handlers)[k] in handlers
  {
    var last := handlers[|handlers| - 1];
    if k != HandlerKey(last) {
      RegistryHoldsInputs(handlers[..|handlers| - 1], k);
    }
  }

  /** There are no more entries than handlers. */
  lemma {:induction false} RegistrySize(handlers: seq<Handler>)
    ensures |Registry(handlers)| <= |handlers|
  {
    if |handlers| > 0 {
      var init := handlers[..|handlers| - 1];
      RegistrySize(init);
      var last := handlers[|handlers| - 1];
      var m := Registry(init);
      assert Registry(handlers).Keys == m.Keys + {HandlerKey(last)};
      assert |m.Keys + {HandlerKey(last)}| <= |m.Keys| + 1;
    }
  }

  /** Different queue and message names can share a key: ("a-b", "c") and
      ("a", "b-c") both file under "a-b-c", and the later handler wins. */
  lemma KeysCollide(h1: Handler, h2: Handler)
    requires h1 == Handler("first", "a-b", "c", "T1") && h2 == Handler("second", "a", "b-c", "T2")
    ensures HandlerKey(h1) == HandlerKey(h2) == "a-b-c"
    ensures Registry([h1, h2]) == map["a-b-c" := h2]
  {
    assert HandlerKey(h1) == "a-b-c" && HandlerKey(h2) == "a-b-c";
    var one := [h1];
    assert one[..0] == [];
    assert Registry(one) == Registry([])[HandlerKey(h1) := h1];
    var two := [h1, h2];
    assert two[..1] == one;
    assert Registry(two) == Registry(one)[HandlerKey(h2) := h2];
  }
}
