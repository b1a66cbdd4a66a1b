# Checkout form of the bakery storefront, in Dafny

This project models the checkout form of the storefront (`Form` and
`orderSchema` in `src/app/porudzbine/form.tsx`) and proves properties of the
model. The form has two parts with logic in them.

- **Delivery switch and what it drives** (module `CheckoutForm`,
  `checkout_form.dfy`). The only state is the boolean `scheduleDelivery`, which
  starts `false` and is overwritten by the switch. Everything else is derived
  from it: the payment method bound to the radio group, which payment radios
  are enabled, which text inputs are enabled, and whether the date/time
  picker is shown. The class `Form` holds the boolean. The pure functions
  `SelectedPayment`, `EnabledPayments`, `EnabledInputs`, `DatePickerShown`
  and `Render` give the derivations. The lemmas state that the selection is
  always one of the enabled radios, that exactly one radio is enabled per
  mode, that the address inputs and the date picker follow the switch, and
  that switching back restores the opening view.
- **Order schema** (module `OrderSchema`, `order_schema.dfy`). The schema
  checks the record `{name, description, category, price, addedIngredients,
  images}` field by field. `Issues` walks the fields in declaration order and
  collects one issue per failing rule, each with its fixed message. `Validate`
  applies it to the whole schema and `SafeParse` turns the result into
  `Ok(record)` or `Err(issues)`. The lemmas relate this walk to `Accepts`, an
  independent one-line statement of the schema. They also show that images
  and allergen flags never matter, that a price of 0 passes, and that the
  form's default values are rejected with exactly four issues.

`wrappers.dfy` holds the `Option` and `Result` datatypes.

Notes on the source:
- The price rule's message says "must be a positive number", but `min(0)` accepts 0.
  `PriceBoundary` states what the code does: 0 passes and negative prices fail.
- The radio group is controlled (`value={paymentMethod}`) and has no change
  handler. So clicking a radio cannot change the selection; only the switch can.
  This is why the selection is a function of the mode and not a separate state.
- The code has no reconciliation step: `paymentMethod` is derived directly
  from the switch (form.tsx:48). `SelectedPayment`, `EnabledPayments` and
  `Render` show that the selection is therefore always the one enabled radio.
- The schema checks only the six product fields. Nothing checks the contact
  or address fields, a future date, or the cart.

## Model

| member | source | states |
|---|---|---|
| `CheckoutForm.SelectedPayment` | src/app/porudzbine/form.tsx:48 | the method bound to the radio group is always an enabled radio of that mode and is never online payment |
| `CheckoutForm.EnabledPayments` | src/app/porudzbine/form.tsx:236-332 | a radio is in the enabled set exactly when it is enabled in that mode. The set is exactly the selected method, so cash on delivery is enabled iff delivery is scheduled, in-store cash iff it is not, and online payment never |
| `CheckoutForm.EnabledInputs` | src/app/porudzbine/form.tsx:78-187 | name, phone and email are always enabled; city, address and zip are enabled exactly when delivery is scheduled |
| `CheckoutForm.DatePickerShown` | src/app/porudzbine/form.tsx:213-224 | the date/time picker is shown exactly when every address input (city, address, zip) is enabled, exactly when cash on delivery is enabled, and exactly when in-store cash is not |
| `CheckoutForm.Render` | src/app/porudzbine/form.tsx:48-332 | in every mode: the selection is among the enabled radios, one radio is enabled, online payment is not, the contact inputs are enabled, the date picker is shown iff all address inputs are enabled, and iff cash on delivery is the selection |
| `CheckoutForm.InitialRender` | src/app/porudzbine/form.tsx:46-48 | the opening view selects in-store cash, enables only that radio and only the contact inputs, and hides the date picker. The scheduled view selects cash on delivery with every input enabled and the picker shown |
| `CheckoutForm.AfterClicksParity` | src/app/porudzbine/form.tsx:206-211 | after n clicks on the controlled switch, the mode is the starting mode if n is even and its negation if n is odd |
| `CheckoutForm.EvenClicksRestoreView` | src/app/porudzbine/form.tsx:206-211 | an even number of clicks restores the selection, the enabled radios and inputs, and the date-picker visibility the form had before |
| `CheckoutForm.ClicksFromInitial` | src/app/porudzbine/form.tsx:46-211 | from the opening state the view after n clicks equals the opening view exactly when n is even; after an odd number, cash on delivery is selected |
| `CheckoutForm.Form.constructor` | src/app/porudzbine/form.tsx:46 | a new form has the switch off and shows the opening view |
| `CheckoutForm.Form.SetScheduleDelivery` | src/app/porudzbine/form.tsx:206-211 | the switch value is overwritten by the reported value, and the view afterwards depends on that value alone, whatever the earlier state was |
| `CheckoutForm.Form.ClickSwitch` | src/app/porudzbine/form.tsx:206-211 | a click negates the switch value, which is one step of the click sequence |
| `CheckoutForm.ToggleOnAndOff` | src/app/porudzbine/form.tsx:46-211 | on a new form, switching delivery on gives the scheduled view, with cash on delivery selected and the date picker shown; switching it off again gives back the opening view |
| `OrderSchema.RuleMessage` | src/app/porudzbine/form.tsx:28-40 | each of the five rules has its fixed, non-empty message; `images` is the one field with no rule |
| `OrderSchema.FieldValid` | src/app/porudzbine/form.tsx:28-40 | the per-field rules: `min(1)` on name, description, category and the ingredient list, inclusive `min(0)` on the price, nothing on images. Images always pass, a price of 0 passes, and every rule holds of an accepted record |
| `OrderSchema.Raised` | src/app/porudzbine/form.tsx:28-40 | a field raises no issue exactly when its rule holds, otherwise one issue naming that field with that rule's fixed message |
| `OrderSchema.Issues` | src/app/porudzbine/form.tsx:27-41 | every issue raised names one of the walked fields whose rule fails and carries that rule's message. Every walked field whose rule fails raises its issue |
| `OrderSchema.Validate` | src/app/porudzbine/form.tsx:27-41 | the issues are every failing rule's issue with its fixed message and only those, none for images. There are none iff the record meets every rule (`Accepts`) |
| `OrderSchema.SafeParse` | src/app/porudzbine/form.tsx:27-51 | parsing succeeds iff the record is accepted and then returns the record unchanged; otherwise it fails with the non-empty issue list |
| `OrderSchema.PriceBoundary` | src/app/porudzbine/form.tsx:31 | a price of 0 raises no issue; a negative price raises the price issue with its message |
| `OrderSchema.IssuesIgnoreImagesAndAllergens` | src/app/porudzbine/form.tsx:32-40 | two records that agree on the strings, the price and the number of ingredients raise the same issues over any list of fields |
| `OrderSchema.UnconstrainedContents` | src/app/porudzbine/form.tsx:32-40 | replacing the images, or the ingredients by as many others (any names, any allergen flags), leaves the issues unchanged |
| `OrderSchema.ValidateInShapeOrder` | src/app/porudzbine/form.tsx:27-41 | the issues come out in declaration order: name, description, category, price, ingredients, at most one each |
| `OrderSchema.EmptyFieldsRejected` | src/app/porudzbine/form.tsx:27-41 | a record with empty strings, no ingredients and a price of at least 0 raises exactly the name, description, category and ingredient issues, in that order |
| `OrderSchema.DefaultsRejected` | src/app/porudzbine/form.tsx:52-59 | the form's default values are not accepted. Parsing them fails with exactly those four issues; the price of 0 raises none |
| `OrderSchema.FilledDefaultsAccepted` | src/app/porudzbine/form.tsx:52-59 | the default values with the three strings filled in and one ingredient added are accepted |

## Left out

- Rendering, CSS classes, labels and tooltips: presentation only. The model keeps only the enabled, disabled and visible booleans.
- The switch and radio components are foreign code. The model assumes that a click on the controlled switch reports the negation of `checked`, and that a disabled radio cannot be picked.
- The date/time picker: its value is not bound to any state in the form, so only whether it is shown is modelled.
- react-hook-form and `zodResolver`: the mapping from issues to per-field form errors and the submission flow are library code. The submit button has no handler, so nothing is submitted.
- Type checks of the schema (a non-string name, a non-number price): the model's record is typed, so those rejections cannot arise. Prices are `real`; NaN and infinities of JavaScript numbers are not modelled.
- String length: `min(1)` counts UTF-16 code units and the model counts characters. Both mean "non-empty" here.
- The cart store (add, remove, set quantity, totals, persistence): its code, `src/context/CartContext`, is not part of this model.
- Product listing, catalog pages and layouts (`ListProducts.tsx`, the product pages, the layouts): display and data fetching with no core logic.
