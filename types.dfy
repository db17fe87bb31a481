/**
 * The records of the delivery app (types/index.ts). Optional properties
 * (`notes?: string`) are `Option`s. Monetary amounts are carried as opaque
 * `real` values: nothing in the model computes with them.
 */
module Types {
  import opened Wrappers

  datatype User = User(
    id: int,
    name: string,
    email: string,
    phone: string,
    vehicle: string,
    plate: string,
    companyName: Option<string>,
    companyCnpj: Option<string>,
    tenantId: Option<int>)

  datatype RouteStatus = Pendente | Ativo | Finalizado | Cancelado

  datatype DeliveryStatus = DeliveryPendente | EmAndamento | Entregue | Problema

  datatype PaymentMethod = Dinheiro | Pix | Cartao | Debito

  datatype Delivery = Delivery(
    id: int,
    customerName: string,
    address: string,
    phone: string,
    value: real,
    status: DeliveryStatus,
    items: seq<string>,
    notes: Option<string>,
    paymentMethod: PaymentMethod,
    driverNotes: Option<string>,
    customerId: Option<int>,
    deliveredAt: Option<string>,
    estimatedTime: Option<int>)

  datatype Route = Route(
    id: int,
    date: string,
    status: RouteStatus,
    totalValue: real,
    deliveries: seq<Delivery>,
    driverId: Option<int>,
    companyId: Option<int>,
    createdAt: Option<string>,
    estimatedDuration: Option<int>)

  datatype LoginCredentials = LoginCredentials(email: string, password: string, cnpj: string)

  datatype NotificationSettings = NotificationSettings(
    newRoutes: bool,
    deliveryReminders: bool,
    paymentUpdates: bool,
    systemMessages: bool)
}
