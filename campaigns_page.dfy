/** The campaigns page: a home screen, the creation wizard, the list of
    existing campaigns and a template viewer, one shown at a time, with the
    campaign handed to the wizard and the template handed to the viewer kept
    beside the current view. */
module CampaignsPage {
  import opened Wrappers
  import opened Entities

  /** `activeView`: "home", "stepper", "campaigns" or "view". */
  datatype View = Home | Stepper | CampaignsList | TemplateView

  class CampaignsPageState {
    var activeView: View
    var campaignToEdit: Option<Campaign>
    var templateToView: Option<Template>

    /** A campaign waits for the wizard only while the wizard is shown, and a
        template for the viewer only while the viewer is shown: every way out
        of those two views clears them. */
    predicate Valid()
      reads this
    {
      && (campaignToEdit.Some? ==> activeView == Stepper)
      && (templateToView.Some? ==> activeView == TemplateView)
    }

    constructor ()
      ensures activeView == Home && campaignToEdit == None && templateToView == None
      ensures Valid()
    {
      activeView := Home;
      campaignToEdit := None;
      templateToView := None;
    }

    /** "Existing Campaigns" on the home screen. */
    method OpenExisting()
      requires Valid() && activeView == Home
      modifies `activeView
      ensures activeView == CampaignsList
      ensures Valid()
    {
      activeView := CampaignsList;
    }

    /** "Create New Campaign": the wizard opens empty. */
    method CreateNew()
      requires Valid() && activeView == Home
      modifies `activeView, `campaignToEdit
      ensures activeView == Stepper && campaignToEdit == None
      ensures Valid()
    {
      campaignToEdit := None;
      activeView := Stepper;
    }

    /** The wizard's `onCancel`, also called once a campaign is sent. */
    method StepperCancel()
      requires Valid() && activeView == Stepper
      modifies `activeView, `campaignToEdit
      ensures activeView == Home && campaignToEdit == None
      ensures Valid()
    {
      activeView := Home;
      campaignToEdit := None;
    }

    /** The list's `onClose`: back to the home screen. */
    method ListClose()
      requires Valid() && activeView == CampaignsList
      modifies `activeView
      ensures activeView == Home
      ensures Valid()
    {
      activeView := Home;
    }

    /** The list's `onEdit(campaign)`: the wizard opens on that campaign. */
    method ListEdit(c: Campaign)
      requires Valid() && activeView == CampaignsList
      modifies `activeView, `campaignToEdit
      ensures activeView == Stepper && campaignToEdit == Some(c)
      ensures Valid()
    {
      campaignToEdit := Some(c);
      activeView := Stepper;
    }

    /** The list's `onView(c.template)`: the viewer opens on the campaign's
        template, which the campaign may lack. */
    method ListView(c: Campaign)
      requires Valid() && activeView == CampaignsList
      modifies `activeView, `templateToView
      ensures activeView == TemplateView && templateToView == c.template
      ensures Valid()
    {
      templateToView := c.template;
      activeView := TemplateView;
    }

    /** The viewer's `onClose`: back to the list, not to the home screen. */
    method ViewClose()
      requires Valid() && activeView == TemplateView
      modifies `activeView, `templateToView
      ensures activeView == CampaignsList && templateToView == None
      ensures Valid()
    {
      templateToView := None;
      activeView := CampaignsList;
    }
  }
}
