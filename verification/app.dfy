/**
 * main/main.cpp: the callbacks the Matter node is created with. Attribute
 * writes reach the LED driver only before they are stored and only on the
 * light endpoint; identify requests are acknowledged; removing the last
 * fabric reopens commissioning.
 */
module App {
  import opened Matter
  import opened LedIndicator
  import opened LedDriver

  /** How long a reopened commissioning window stays open, in seconds. */
  const COMMISSIONING_TIMEOUT_SECONDS: nat := 300

  /** `attribute::callback_type_t` */
  datatype CallbackType = PreUpdate | PostUpdate | ReadAttribute | WriteAttribute

  /** The setter an attribute callback runs: the dispatcher's choice, and only for a pre-update. */
  function Routed(kind: CallbackType, lightEndpoint: uint16, endpoint: uint16, cluster: uint32, attribute: uint32)
    : (r: Option<Setter>)
    ensures r.Some? ==> kind == PreUpdate && endpoint == lightEndpoint && r == Dispatch(lightEndpoint, endpoint, cluster, attribute)
    ensures kind == PreUpdate ==> r == Dispatch(lightEndpoint, endpoint, cluster, attribute)
  {
    if kind == PreUpdate && endpoint == lightEndpoint then Dispatch(lightEndpoint, endpoint, cluster, attribute) else None
  }

  /**
   * `app_attribute_update_cb`: a pre-update on the light endpoint is handed to
   * the LED driver, whose code is returned; every other callback returns
   * ESP_OK and leaves the LED alone. `led` is the driver handle registered as
   * the light endpoint's private data.
   */
  method AttributeUpdateCb(led: Indicator, lightEndpoint: uint16, kind: CallbackType, endpoint: uint16,
                           cluster: uint32, attribute: uint32, val: AttrVal) returns (err: EspErr)
    requires kind == PreUpdate ==> UpdateDefined(lightEndpoint, endpoint, cluster, attribute, val)
    modifies led
    ensures Performed(led, old(led.state), old(led.trace), Routed(kind, lightEndpoint, endpoint, cluster, attribute), val, err)
  {
    err := ESP_OK;
    if kind == PreUpdate {
      if endpoint == lightEndpoint {
        err := AttributeUpdate(led, lightEndpoint, endpoint, cluster, attribute, val);
        return;
      }
    }
  }

  /** Post-update, read and write callbacks, and writes on any endpoint but the light's (the temperature sensor's included), select nothing. */
  lemma OnlyLightPreUpdatesRouted(kind: CallbackType, lightEndpoint: uint16, endpoint: uint16, cluster: uint32, attribute: uint32)
    requires kind != PreUpdate || endpoint != lightEndpoint
    ensures Routed(kind, lightEndpoint, endpoint, cluster, attribute) == None
  {
  }

  /** A pre-update of a handled attribute on the light endpoint runs that attribute's setter. */
  lemma LightPreUpdateRunsSetter(lightEndpoint: uint16, setter: Setter)
    ensures Routed(PreUpdate, lightEndpoint, lightEndpoint, Key(setter).0, Key(setter).1) == Some(setter)
  {
    HandledWriteSelectsItsSetter(lightEndpoint, setter);
  }

  /** `app_identification_cb`: every identify request is acknowledged with ESP_OK and nothing else happens. */
  function IdentificationCb(kind: nat, endpoint: uint16, effectId: uint8, effectVariant: uint8): (err: EspErr)
    ensures err == ESP_OK
  {
    ESP_OK
  }

  /** The `ChipDeviceEvent` types `app_event_cb` distinguishes; every other type is `OtherEvent`. */
  datatype DeviceEvent =
    | InterfaceIpAddressChanged
    | CommissioningComplete
    | FailSafeTimerExpired
    | CommissioningSessionStarted
    | CommissioningSessionStopped
    | CommissioningWindowOpened
    | CommissioningWindowClosed
    | FabricRemoved
    | FabricWillBeRemoved
    | FabricUpdated
    | FabricCommitted
    | BleDeinitialized
    | OtherEvent

  /** `chip::CommissioningWindowAdvertisement` */
  datatype Advertisement = AllSupported | DnssdOnly

  /** What the event callback asks of the commissioning window manager. */
  datatype EventAction =
    | NoAction
    | OpenBasicCommissioningWindow(timeoutSeconds: nat, advertisement: Advertisement)

  /**
   * `app_event_cb`: every event is only logged, except that removing a fabric
   * when no fabric is left and no commissioning window is open opens a basic
   * window for 300 seconds, advertised on DNS-SD only.
   */
  function EventCb(event: DeviceEvent, fabricCount: nat, windowOpen: bool): (a: EventAction)
    ensures a != NoAction <==> event == FabricRemoved && fabricCount == 0 && !windowOpen
    ensures a.OpenBasicCommissioningWindow? ==> a.timeoutSeconds == COMMISSIONING_TIMEOUT_SECONDS && a.advertisement == DnssdOnly
  {
    match event
    case FabricRemoved =>
      if fabricCount == 0 then
        if !windowOpen then OpenBasicCommissioningWindow(COMMISSIONING_TIMEOUT_SECONDS, DnssdOnly) else NoAction
      else NoAction
    case _ => NoAction
  }

  /** Once a window is open, a further fabric removal does not try to open another. */
  lemma NoSecondWindow(event: DeviceEvent, fabricCount: nat)
    ensures EventCb(event, fabricCount, true) == NoAction
  {
  }
}
