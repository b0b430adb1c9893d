/** The request-scoped "current organization" slot (the module
    `config.organization_context`). The source keeps it in a `ContextVar`
    whose default is `None`; the model keeps one sequential slot. */
module OrganizationContext {

  import opened Wrappers
  import opened OrganizationConfig

  class ContextSlot {
    var current: Option<OrganizationSettings>

    /** A fresh slot holds the `ContextVar`'s default, `None`. */
    constructor ()
      ensures current == None
    {
      current := None;
    }

    /** `set_current_organization(org)`: binds `org`, settings or `None`. */
    method SetCurrentOrganization(org: Option<OrganizationSettings>)
      modifies this
      ensures current == org
    {
      current := org;
    }

    /** `get_current_organization()`: exactly what was last bound. */
    method GetCurrentOrganization() returns (org: Option<OrganizationSettings>)
      ensures org == current
    {
      org := current;
    }

    /** `clear_current_organization()`: binds `None`. It has no precondition,
        so clearing an empty slot never fails, and it leaves `None`. */
    method ClearCurrentOrganization()
      modifies this
      ensures current == None
    {
      current := None;
    }
  }

  /** The slot's contract as a client sees it: nothing set reads `None`, a set
      value reads back exactly, and clearing (twice, too) reads `None`. */
  method SlotProtocol(org: Option<OrganizationSettings>) returns (initial: Option<OrganizationSettings>,
                                                                  afterSet: Option<OrganizationSettings>,
                                                                  afterClear: Option<OrganizationSettings>)
    ensures initial == None && afterSet == org && afterClear == None
  {
    var slot := new ContextSlot();
    initial := slot.GetCurrentOrganization();
    slot.SetCurrentOrganization(org);
    afterSet := slot.GetCurrentOrganization();
    slot.ClearCurrentOrganization();
    slot.ClearCurrentOrganization();
    afterClear := slot.GetCurrentOrganization();
  }
}
