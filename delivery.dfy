/** The delivery page: the list of deliveries, the create/edit dialog and the active/delivered tabs. */
module Delivery {
  import opened Wrappers
  import opened Lists
  import opened Records

  /** The fields of a delivery besides its id. */
  datatype DeliveryInfo = DeliveryInfo(
    customer: string,
    address: string,
    phone: string,
    items: int,
    total: real,
    status: string,
    estimatedTime: string,
    driver: string)

  type Deliveries = seq<Keyed<DeliveryInfo>>

  /** The form a new delivery starts from. */
  const BlankForm: DeliveryInfo := DeliveryInfo("", "", "", 1, 0.0, "Preparing", "30-40 min", "")

  /** The form passes validation: customer, address and phone are all filled in. */
  predicate ValidForm(f: DeliveryInfo)
  {
    f.customer != "" && f.address != "" && f.phone != ""
  }

  /** Not yet delivered. */
  predicate IsActive(d: Keyed<DeliveryInfo>)
  {
    d.info.status != "Delivered"
  }

  /** `filteredDeliveries`: the "active" tab shows what is not delivered yet, any other tab what is. */
  function FilteredDeliveries(ds: Deliveries, tab: string): (r: Deliveries)
    ensures IsSubsequence(r, ds)
    ensures tab == "active" ==> forall d :: d in r <==> d in ds && d.info.status != "Delivered"
    ensures tab != "active" ==> forall d :: d in r <==> d in ds && d.info.status == "Delivered"
  {
    var keep := (d: Keyed<DeliveryInfo>) => if tab == "active" then IsActive(d) else !IsActive(d);
    FilterSubsequence(ds, keep);
    Filter(ds, keep)
  }

  /** The two tabs split the list: together they hold every delivery exactly once. */
  lemma TabsPartition(ds: Deliveries, other: string)
    requires other != "active"
    ensures |FilteredDeliveries(ds, "active")| + |FilteredDeliveries(ds, other)| == |ds|
    ensures multiset(FilteredDeliveries(ds, "active")) + multiset(FilteredDeliveries(ds, other)) == multiset(ds)
  {
    var p := (d: Keyed<DeliveryInfo>) => if "active" == "active" then IsActive(d) else !IsActive(d);
    var q := (d: Keyed<DeliveryInfo>) => if other == "active" then IsActive(d) else !IsActive(d);
    FilterPartition(ds, p, q);
  }

  /** The page's state: the deliveries, the delivery being edited (if any) and the dialog's form. */
  class DeliveryPage {
    var deliveries: Deliveries
    var selected: Option<Keyed<DeliveryInfo>>
    var form: DeliveryInfo

    constructor (initial: Deliveries)
      ensures deliveries == initial && selected == None && form == BlankForm
    {
      deliveries := initial;
      selected := None;
      form := BlankForm;
    }

    /** `handleNewDelivery`: no selection and a blank form. */
    method HandleNewDelivery()
      modifies this
      ensures deliveries == old(deliveries) && selected == None && form == BlankForm
    {
      selected := None;
      form := BlankForm;
    }

    /** `handleEditDelivery`: select a delivery and copy its fields into the form. */
    method HandleEditDelivery(d: Keyed<DeliveryInfo>)
      modifies this
      ensures deliveries == old(deliveries) && selected == Some(d) && form == d.info
    {
      selected := Some(d);
      form := d.info;
    }

    /**
     * `handleSubmit`: an incomplete form changes nothing; otherwise an edit
     * gives the form's fields to the record with the selected id, and a new
     * delivery is appended with a fresh id.
     */
    method HandleSubmit() returns (accepted: bool)
      modifies this
      ensures accepted <==> ValidForm(old(form))
      ensures selected == old(selected) && form == old(form)
      ensures !accepted ==> deliveries == old(deliveries)
      ensures accepted && selected.Some? ==> deliveries == ReplaceInfo(old(deliveries), selected.value.id, form)
      ensures accepted && selected.None? ==> deliveries == AppendFresh(old(deliveries), form)
      ensures UniqueIds(old(deliveries)) ==> UniqueIds(deliveries)
    {
      if form.customer == "" || form.address == "" || form.phone == "" {
        return false;
      }
      if selected.Some? {
        deliveries := ReplaceInfo(deliveries, selected.value.id, form);
      } else {
        deliveries := AppendFresh(deliveries, form);
      }
      accepted := true;
    }
  }
}
