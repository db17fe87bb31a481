/**
 * The seeded data set and its accessors (data/mockData.ts). The accessors take
 * the route list as a parameter; the app always passes `MockRoutes`. The list is
 * an immutable constant and no accessor has a `modifies` clause, so none of them
 * can change it.
 */
module MockData {
  import opened Wrappers
  import opened Types
  import opened Seqs

  const MockUser := User(1, "João Silva", "joao@exemplo.com", "(11) 99999-9999",
                         "Honda CG 160", "ABC-1234", None, None, None)

  function SeedDelivery(id: int, customerName: string, address: string, phone: string,
                        value: real, status: DeliveryStatus, items: seq<string>,
                        notes: string, paymentMethod: PaymentMethod): Delivery
  {
    Delivery(id, customerName, address, phone, value, status, items, Some(notes),
             paymentMethod, None, None, None, None)
  }

  const MockRoutes: seq<Route> := [
    Route(1, "2024-05-26", Ativo, 120.50, [
      SeedDelivery(1, "Restaurant do Zé", "Rua das Flores, 123 - Centro", "(11) 1111-1111",
                   45.30, DeliveryPendente, ["Pizza Margherita", "Refrigerante 2L"],
                   "Entregar no balcão", Dinheiro),
      SeedDelivery(2, "Padaria Central", "Av. Principal, 456 - Vila Nova", "(11) 2222-2222",
                   32.20, DeliveryPendente, ["Pães diversos", "Doces"],
                   "Tocar campainha", Pix),
      SeedDelivery(3, "Mercado Bom Preço", "Rua do Comércio, 789 - Jardim", "(11) 3333-3333",
                   43.00, DeliveryPendente, ["Produtos diversos"],
                   "Entrada pelos fundos", Cartao)
    ], None, None, None, None),
    Route(2, "2024-05-25", Finalizado, 89.75, [
      SeedDelivery(4, "Farmácia Popular", "Rua da Saúde, 321 - Centro", "(11) 4444-4444",
                   89.75, Entregue, ["Medicamentos"],
                   "Verificar receita", Dinheiro)
    ], None, None, None, None)
  ]

  /** `getRouteById`: the first route, in list order, whose id is `id`. */
  function GetRouteById(routes: seq<Route>, id: int): (r: Option<Route>)
    ensures r.Some? ==> r.value in routes && r.value.id == id
    ensures r.None? <==> forall k :: 0 <= k < |routes| ==> routes[k].id != id
    ensures r.Some? ==> exists k :: 0 <= k < |routes| && routes[k] == r.value &&
                                    forall j :: 0 <= j < k ==> routes[j].id != id
  {
    Find(routes, (route: Route) => route.id == id)
  }

  /** `route.deliveries.find(d => d.id === deliveryId)`. */
  function DeliveryIn(route: Route, deliveryId: int): (r: Option<Delivery>)
    ensures r.Some? ==> r.value in route.deliveries && r.value.id == deliveryId
    ensures r.None? <==> forall j :: 0 <= j < |route.deliveries| ==> route.deliveries[j].id != deliveryId
    ensures r.Some? ==> exists j :: 0 <= j < |route.deliveries| && route.deliveries[j] == r.value &&
                                    forall i :: 0 <= i < j ==> route.deliveries[i].id != deliveryId
  {
    Find(route.deliveries, (d: Delivery) => d.id == deliveryId)
  }

  /** The `{ delivery, route }` pair `getDeliveryById` returns. */
  datatype DeliveryMatch = DeliveryMatch(delivery: Delivery, route: Route)

  /**
   * What `getDeliveryById` computes: the routes are scanned in order, and the
   * first one holding a delivery with that id is returned with that delivery.
   */
  function FindDelivery(routes: seq<Route>, deliveryId: int): (r: Option<DeliveryMatch>)
    ensures r.Some? ==> r.value.delivery.id == deliveryId
    ensures r.Some? ==> r.value.delivery in r.value.route.deliveries && r.value.route in routes
    ensures r.None? <==> forall k, j :: 0 <= k < |routes| && 0 <= j < |routes[k].deliveries| ==>
                                          routes[k].deliveries[j].id != deliveryId
    ensures r.Some? ==> exists k :: 0 <= k < |routes| && routes[k] == r.value.route &&
                                    DeliveryIn(routes[k], deliveryId) == Some(r.value.delivery) &&
                                    forall j :: 0 <= j < k ==> DeliveryIn(routes[j], deliveryId).None?
  {
    var k := FirstIndex(routes, (route: Route) => DeliveryIn(route, deliveryId).Some?);
    if k < |routes| then Some(DeliveryMatch(DeliveryIn(routes[k], deliveryId).value, routes[k]))
    else None
  }

  /** `getDeliveryById`: the for-of loop with its early return. */
  method GetDeliveryById(routes: seq<Route>, deliveryId: int) returns (r: Option<DeliveryMatch>)
    ensures r == FindDelivery(routes, deliveryId)
  {
    for i := 0 to |routes|
      invariant forall k :: 0 <= k < i ==> DeliveryIn(routes[k], deliveryId).None?
    {
      var delivery := DeliveryIn(routes[i], deliveryId);
      if delivery.Some? {
        return Some(DeliveryMatch(delivery.value, routes[i]));
      }
    }
    return None;
  }

  /** `getActiveRoute`: the first route whose status is `'ativo'`. */
  function GetActiveRoute(routes: seq<Route>): (r: Option<Route>)
    ensures r.Some? ==> r.value in routes && r.value.status == Ativo
    ensures r.None? <==> forall k :: 0 <= k < |routes| ==> routes[k].status != Ativo
    ensures r.Some? ==> exists k :: 0 <= k < |routes| && routes[k] == r.value &&
                                    forall j :: 0 <= j < k ==> routes[j].status != Ativo
  {
    Find(routes, (route: Route) => route.status == Ativo)
  }

  // Facts about the seed data.

  lemma SeedActiveRoute()
    ensures GetActiveRoute(MockRoutes) == Some(MockRoutes[0])
    ensures GetActiveRoute(MockRoutes).value.id == 1
  {
    assert MockRoutes[0].status == Ativo;
  }

  lemma SeedRouteById(id: int)
    ensures GetRouteById(MockRoutes, id) ==
              if id == 1 then Some(MockRoutes[0])
              else if id == 2 then Some(MockRoutes[1])
              else None
  {
    assert MockRoutes[0].id == 1 && MockRoutes[1].id == 2;
  }

  /** No delivery id occurs twice anywhere in the seed routes. */
  lemma SeedDeliveryIdsUnique(k1: int, j1: int, k2: int, j2: int)
    requires 0 <= k1 < |MockRoutes| && 0 <= j1 < |MockRoutes[k1].deliveries|
    requires 0 <= k2 < |MockRoutes| && 0 <= j2 < |MockRoutes[k2].deliveries|
    requires MockRoutes[k1].deliveries[j1].id == MockRoutes[k2].deliveries[j2].id
    ensures k1 == k2 && j1 == j2
  {
    SeedDeliveryIds(k1, j1);
    SeedDeliveryIds(k2, j2);
  }

  /** Route 1 holds deliveries 1 to 3 in order; route 2 holds delivery 4. */
  lemma SeedDeliveryIds(k: int, j: int)
    requires 0 <= k < |MockRoutes| && 0 <= j < |MockRoutes[k].deliveries|
    ensures MockRoutes[k].deliveries[j].id == (if k == 0 then j + 1 else 4)
  {
  }

  lemma SeedDeliveriesOfRoute1(deliveryId: int)
    ensures DeliveryIn(MockRoutes[0], deliveryId) ==
              if 1 <= deliveryId <= 3 then Some(MockRoutes[0].deliveries[deliveryId - 1]) else None
  {
    var r := DeliveryIn(MockRoutes[0], deliveryId);
    if r.Some? {
      var j :| 0 <= j < |MockRoutes[0].deliveries| && MockRoutes[0].deliveries[j] == r.value &&
               forall i :: 0 <= i < j ==> MockRoutes[0].deliveries[i].id != deliveryId;
      SeedDeliveryIds(0, j);
    } else if 1 <= deliveryId <= 3 {
      SeedDeliveryIds(0, deliveryId - 1);
    }
  }

  lemma SeedDeliveriesOfRoute2(deliveryId: int)
    ensures DeliveryIn(MockRoutes[1], deliveryId) ==
              if deliveryId == 4 then Some(MockRoutes[1].deliveries[0]) else None
  {
    assert MockRoutes[1].deliveries[0].id == 4;
  }

  /** Ids 1 to 3 resolve to route 1, id 4 to route 2, and every other id to nothing. */
  lemma SeedDeliveryById(deliveryId: int)
    ensures 1 <= deliveryId <= 3 ==>
              FindDelivery(MockRoutes, deliveryId) ==
                Some(DeliveryMatch(MockRoutes[0].deliveries[deliveryId - 1], MockRoutes[0]))
    ensures deliveryId == 4 ==>
              FindDelivery(MockRoutes, deliveryId) ==
                Some(DeliveryMatch(MockRoutes[1].deliveries[0], MockRoutes[1]))
    ensures !(1 <= deliveryId <= 4) ==> FindDelivery(MockRoutes, deliveryId).None?
  {
    SeedDeliveriesOfRoute1(deliveryId);
    SeedDeliveriesOfRoute2(deliveryId);
    var p := (route: Route) => DeliveryIn(route, deliveryId).Some?;
    var k := FirstIndex(MockRoutes, p);
    if 1 <= deliveryId <= 3 {
      assert p(MockRoutes[0]);
      assert k == 0;
    } else if deliveryId == 4 {
      assert !p(MockRoutes[0]) && p(MockRoutes[1]);
      assert k == 1;
    } else {
      assert !p(MockRoutes[0]) && !p(MockRoutes[1]);
    }
  }
}
