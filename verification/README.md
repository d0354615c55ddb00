# Real estate marketing site: navigation, carousel, listings and contact form

This project models in Dafny the parts of an Angular marketing site for a real estate agency that carry behaviour:

- **Header navigation state machine** (`Header`). It keeps `isScrolled`, `isMobileMenuOpen` and `activeSection`.
  - A scroll signal sets `isScrolled` with a strict threshold of 20 pixels.
  - It then runs the scroll-spy. The active section becomes the first menu section, in menu order, whose half-open range `[offsetTop, offsetTop + offsetHeight)` contains `scrollY + 100`. When no section matches, the old value is kept.
  - Clicking a menu item scrolls smoothly to `offsetTop - 80` and marks the item active at once. It also closes the mobile menu if it is open.
  - Toggling the mobile menu locks or unlocks body scrolling through `overflow`.
- **Image carousel** of a listing card (`PropertyCard`).
  - The images are the listing's gallery, or its single image when the gallery is absent or empty.
  - "Next" and "previous" wrap around.
  - "Go to" takes any index without a bounds check. The current image is therefore optional.
  - Every carousel control stops the click event from propagating.
- **Listing queries** (`PropertyQueries`): all listings, the featured ones, one by id, and those of one type.
- **Contact form** (`ContactSection`).
  - The per-field validators: required, minimum length and a phone pattern.
  - The error message, chosen by a fixed priority.
  - Submission, which resets a valid form and leaves an invalid one alone.
- **Star rows** of the testimonials (`Testimonials`).
- **Stateless scroll handlers** of the hero, footer, about and featured-listings sections. Each one issues a single smooth scroll to `offsetTop - 80`, or nothing when the target section is missing.

The browser is abstracted as one shared `Dom.Page` object with four parts:

- the scroll offset `scrollY`;
- a map from element id to the element's `offsetTop` and `offsetHeight` (`document.getElementById`);
- a log of `window.scrollTo` commands;
- the body's `overflow` style.

Components with mutable fields are classes. Their methods state their whole new state and are proved against pure specification functions: `DetectedSection`, `Toggle`, `NextIndex`/`PreviousIndex`, `FormValid` and `SectionScroll`. The lemmas about those functions state the properties. The listing queries are pure functions over the stored list, built on a generic `Filter` and `FindFirst` (module `Seqs`). Each of those two has a complete contract.

The design intends two invariants that the code does not enforce, and the model follows the code:

- The carousel index can leave the range of the images. `GoToImage` takes any index, and binding a different listing keeps the old index. `CurrentImage` is then absent.
- The active section can be an id that is not in the menu. `ScrollToSection` accepts any id that has an element. Only the scroll-spy is limited to menu sections (`DetectedIsMenuSection`).

## Model

| member | source | states |
|---|---|---|
| Dom.SectionScrollShape | src/app/sections/hero/hero-section.component.ts:34-46 | a scroll handler issues no command when the element is missing, otherwise exactly one smooth scroll whose target plus 80 is the element's top |
| Dom.SectionScrollNotClamped | src/app/sections/hero/hero-section.component.ts:37-39 | the target is not clamped: an element less than 80 pixels from the top gives a negative target |
| Dom.Page.GetElementById | src/app/components/header/header.component.ts:68 | the lookup yields the element exactly when one has that id, never an error |
| Dom.Page.ScrollTo | src/app/components/header/header.component.ts:74-77 | a scroll call appends one smooth command with the given target and changes nothing else (no scroll offset update) |
| Dom.Page.ScrollToElement | src/app/sections/hero/hero-section.component.ts:35-45 | the shared handler body appends exactly the commands `SectionScroll` prescribes |
| Dom.UiEvent.StopPropagation | src/app/components/property-card/property-card.component.ts:49 | afterwards the event's propagation is stopped |
| Seqs.Filter | src/app/services/property.service.ts:31 | the result is an order-preserving subsequence holding each kept value exactly as often as the input, and nothing else |
| Seqs.FilterAllKept | src/app/services/property.service.ts:49 | every element of a filtered list satisfies the predicate |
| Seqs.FindFirst | src/app/services/property.service.ts:40 | the result is the index of the first element satisfying the predicate, or none exactly when no element does |
| Seqs.SubsequenceNotLonger | src/app/services/property.service.ts:30-32 | a subsequence is never longer than the list it is drawn from |
| Header.ScrolledBoundary | src/app/components/header/header.component.ts:59 | the threshold is strict: 20 pixels is not scrolled, 21 is |
| Header.DetectedSectionCharacterized | src/app/components/header/header.component.ts:107-122 | detection picks the first item in menu order whose section covers `scrollY + 100`; when none does, the previous value stays |
| Header.DetectedIsMenuSection | src/app/components/header/header.component.ts:110-118 | detection writes only menu section ids, or keeps the previous value |
| Header.EmptySectionNeverDetected | src/app/components/header/header.component.ts:113-116 | a section of zero or negative height is never selected |
| Header.StackedSectionsAtTop | src/app/components/header/header.component.ts:108-116 | with sections at 0, 100 and 200, each 100 pixels high, scroll 0 selects the second section |
| Header.StackedSectionsMidway | src/app/components/header/header.component.ts:108-116 | in the same layout, scroll 150 selects the third section |
| Header.StackedSectionsBeyond | src/app/components/header/header.component.ts:110-121 | past all mounted sections, the previous active section is kept rather than reset |
| Header.ToggleLocksConsistently | src/app/components/header/header.component.ts:92-101 | a toggle flips the menu and leaves overflow "hidden" when open and "" when closed |
| Header.ToggleTwiceRestores | src/app/components/header/header.component.ts:92-101 | two toggles restore both the flag and the overflow style when the lock matched the menu |
| Header.ToggleTwiceResetsStrayStyle | src/app/components/header/header.component.ts:92-101 | two toggles keep the menu flag and set overflow to match it ("hidden" open, "" closed), so a stray style is lost and the round trip holds exactly when the lock matched |
| Header.HeaderComponent.constructor | src/app/components/header/header.component.ts:27-33 | starts not scrolled, with the menu closed and "hero" active |
| Header.HeaderComponent.NgOnInit | src/app/components/header/header.component.ts:48-51 | initialisation runs one detection pass |
| Header.HeaderComponent.OnWindowScroll | src/app/components/header/header.component.ts:58-61 | a scroll signal sets `isScrolled` to `scrollY > 20` and the active section to the detection result; the menu is untouched |
| Header.HeaderComponent.ScrollToSection | src/app/components/header/header.component.ts:67-87 | a missing element changes nothing; otherwise one scroll to `offsetTop - 80`, the clicked id becomes active, and an open menu is toggled closed, so a consistent lock ends closed and unlocked |
| Header.HeaderComponent.ToggleMobileMenu | src/app/components/header/header.component.ts:92-101 | the menu and the overflow style become `Toggle` of the old pair |
| Header.HeaderComponent.DetectActiveSection | src/app/components/header/header.component.ts:107-122 | the first-match loop with early exit leaves the active section equal to `DetectedSection` of the old value |
| Header.HeaderComponent.IsActive | src/app/components/header/header.component.ts:129-131 | an item is active exactly when its id equals the active section; reads only |
| Header.AtMostOneActive | src/app/components/header/header.component.ts:36-42 | since the menu ids are distinct, two different menu items are never both active |
| Header.ClickHighlightsItem | src/app/components/header/header.component.ts:79-80 | after clicking a mounted menu item, that item is active and every other menu item is not |
| PropertyQueries.PropertyService.GetAllProperties | src/app/services/property.service.ts:22-24 | returns the stored list unchanged, neither filtered nor reordered |
| PropertyQueries.PropertyService.GetFeaturedProperties | src/app/services/property.service.ts:30-32 | exactly the listings whose `isFeatured` is true (an absent flag counts as false), in stored order, with their multiplicities |
| PropertyQueries.PropertyService.GetPropertyById | src/app/services/property.service.ts:39-41 | none exactly when no listing has the id; otherwise the first listing with that id |
| PropertyQueries.PropertyService.GetPropertiesByType | src/app/services/property.service.ts:48-50 | exactly the listings of the given type, in stored order, with their multiplicities |
| PropertyQueries.QueriesNotLonger | src/app/services/property.service.ts:22-50 | the featured and by-type results are never longer than the full list |
| PropertyQueries.FeaturedAreFeatured | src/app/services/property.service.ts:31 | every featured result has `isFeatured` true |
| PropertyQueries.SaleRentPartition | src/app/services/property.service.ts:48-50 | the sale and rent results together are the full list, as a multiset and by length |
| PropertyQueries.StoredIdIsFound | src/app/services/property.service.ts:39-41 | looking up the id of any stored listing finds a listing with that id |
| PropertyCard.ImagesOf | src/app/components/property-card/property-card.component.ts:24-29 | the gallery when present and non-empty, otherwise the single image; never empty |
| PropertyCard.ImageAt | src/app/components/property-card/property-card.component.ts:41-43 | indexing yields the image exactly for a valid index and is absent otherwise |
| PropertyCard.NextIsModular | src/app/components/property-card/property-card.component.ts:48-55 | on a valid index, "next" is `(i + 1) mod count` and stays in range, so the last image wraps to the first |
| PropertyCard.PreviousIsModular | src/app/components/property-card/property-card.component.ts:60-67 | on a valid index, "previous" is `(i - 1 + count) mod count` and stays in range, so the first wraps to the last |
| PropertyCard.NextPreviousInverse | src/app/components/property-card/property-card.component.ts:48-67 | on valid indexes, "next" and "previous" undo each other |
| PropertyCard.PastTheEnd | src/app/components/property-card/property-card.component.ts:48-67 | from an index at or past the end, "next" returns to 0, but "previous" only decrements and is in range only from exactly the count |
| PropertyCard.PreviousWalksBackFromPastTheEnd | src/app/components/property-card/property-card.component.ts:60-67 | from index `k` past the end, exactly `k - count + 1` presses of "previous" bring an image back into range |
| PropertyCard.PropertyCardComponent.constructor | src/app/components/property-card/property-card.component.ts:15-19 | a new card shows image index 0 of its listing and has emitted nothing |
| PropertyCard.PropertyCardComponent.HasMultipleImages | src/app/components/property-card/property-card.component.ts:34-36 | holds exactly when there is more than one image; otherwise the images are the single first one |
| PropertyCard.PropertyCardComponent.CurrentImage | src/app/components/property-card/property-card.component.ts:41-43 | present exactly when the index is in range, and then the image at the index |
| PropertyCard.PropertyCardComponent.SetProperty | src/app/components/property-card/property-card.component.ts:15 | binding a listing keeps the carousel index as it was |
| PropertyCard.PropertyCardComponent.NextImage | src/app/components/property-card/property-card.component.ts:48-55 | stops propagation; the index becomes `NextIndex` of the old one, and an in-range index stays in range as `(i + 1) mod count` |
| PropertyCard.PropertyCardComponent.PreviousImage | src/app/components/property-card/property-card.component.ts:60-67 | stops propagation; the index becomes `PreviousIndex` of the old one, and an in-range index stays in range as `(i - 1 + count) mod count` |
| PropertyCard.PropertyCardComponent.GoToImage | src/app/components/property-card/property-card.component.ts:72-75 | stops propagation; the index becomes the argument unchecked, and the current image is absent when it is out of range |
| PropertyCard.PropertyCardComponent.OnContactClick | src/app/components/property-card/property-card.component.ts:77-79 | emits exactly the listing's id and leaves the carousel index alone |
| ContactSection.FieldLabel | src/app/sections/contact/contact-section.component.ts:74-82 | the four control names map to their capitalised form; any other key comes back unchanged |
| ContactSection.AllPhoneCharsEverywhere | src/app/sections/contact/contact-section.component.ts:38 | the left-to-right scan of the phone class accepts a string exactly when every character is a digit, a whitespace, `-`, `(` or `)` |
| ContactSection.OutsideClassFailsPattern | src/app/sections/contact/contact-section.component.ts:38 | a character outside `[\d\s\-()]` anywhere, other than a single leading `+`, means the phone pattern fails; this covers every letter, ASCII or not |
| ContactSection.PhoneAcceptsCommonFormats | src/app/sections/contact/contact-section.component.ts:38 | "+30 691 234 5678", "(691) 234-5678" and "+30-691-234-5678" match the phone pattern |
| ContactSection.PhoneRejectsSigns | src/app/sections/contact/contact-section.component.ts:38 | a lone `+` and a doubled `+` do not match |
| ContactSection.DecimalStringRoundTrip | src/app/sections/contact/contact-section.component.ts:62-65 | the rendered minimum length is a non-empty digit string without leading zero that denotes the number |
| ContactSection.ControlErrorsUnfold | src/app/sections/contact/contact-section.component.ts:35-40 | every control is built with two validators, `required` first |
| ContactSection.EmptyReportsOnlyRequired | src/app/sections/contact/contact-section.component.ts:35-40 | an empty or null control reports `required` and no other error |
| ContactSection.NameValidity | src/app/sections/contact/contact-section.component.ts:36 | the name is valid exactly when it has at least 2 characters; one character reports `minlength` with required length 2 |
| ContactSection.EmailValidity | src/app/sections/contact/contact-section.component.ts:37 | the email is valid exactly when it is non-empty and passes the email format test |
| ContactSection.PhoneValidity | src/app/sections/contact/contact-section.component.ts:38 | the phone is valid exactly when it matches the pattern; a non-empty mismatch reports `pattern` only |
| ContactSection.MessageValidity | src/app/sections/contact/contact-section.component.ts:39 | the message is valid exactly when it has at least 10 characters; a shorter non-empty one reports `minlength` with required length 10 |
| ContactSection.FormValidity | src/app/sections/contact/contact-section.component.ts:35-44 | the form is valid exactly when all four field rules hold |
| ContactSection.BlankFormsInvalid | src/app/sections/contact/contact-section.component.ts:43-47 | neither the initial nor the reset form is valid, so submitting right after a successful submit does nothing |
| ContactSection.MessageOfControl | src/app/sections/contact/contact-section.component.ts:54-71 | the priority chain over a control's own validators gives "`caption` is required" for an empty value and otherwise that control's own rule |
| ContactSection.ErrorMessage | src/app/sections/contact/contact-section.component.ts:51-72 | "" for a name that is not a control; otherwise "`Label` is required" for an empty value. For any other value: name "Minimum 2 characters required" below 2 characters; email "Please enter a valid email address" when the format test fails; phone "Please enter a valid phone number" when the pattern fails; message "Minimum 10 characters required" below 10 characters; and "" exactly when the control is valid |
| ContactSection.EmptyFieldMessage | src/app/sections/contact/contact-section.component.ts:54-56 | an empty control always gets "`Label` is required" with its capitalised name |
| ContactSection.NameTooShortMessage | src/app/sections/contact/contact-section.component.ts:62-65 | every one-character name gets "Minimum 2 characters required" |
| ContactSection.MessageTooShortMessage | src/app/sections/contact/contact-section.component.ts:62-65 | every message of 1 to 9 characters gets "Minimum 10 characters required" |
| ContactSection.FormatMessages | src/app/sections/contact/contact-section.component.ts:58-69 | every non-empty phone failing the pattern, in particular one with a letter anywhere, gets the phone message; every non-empty email failing the format test gets the email message |
| ContactSection.ContactSectionComponent.constructor | src/app/sections/contact/contact-section.component.ts:34-40 | the form starts with four empty controls |
| ContactSection.ContactSectionComponent.SetValue | src/app/sections/contact/contact-section.component.spec.ts:94 | editing a control changes that control's value only |
| ContactSection.ContactSectionComponent.OnSubmit | src/app/sections/contact/contact-section.component.ts:43-49 | the alert is raised exactly when the form is valid; a valid form is reset to all nulls, and an invalid one is unchanged |
| ContactSection.ContactSectionComponent.GetErrorMessage | src/app/sections/contact/contact-section.component.ts:51-72 | the component's message for a name is `ErrorMessage` of its current form, so every property proved of `ErrorMessage` holds for it |
| Testimonials.GetStarArray | src/app/sections/testimonials/testimonials-section.component.ts:45-47 | for a valid array length, exactly `rating` zeros; otherwise the range error |
| Testimonials.NoStarsForZero | src/app/sections/testimonials/testimonials-section.component.ts:46 | rating 0 gives an empty star row |
| Testimonials.EveryTestimonialHasFiveStars | src/app/sections/testimonials/testimonials-section.component.ts:21-43 | every testimonial is rated 5 and renders five stars |
| HeroSection.ScrollToSection | src/app/sections/hero/hero-section.component.ts:34-46 | appends the section's scroll command, if any, and changes nothing else |
| Footer.QuickLinksFollowMenu | src/app/components/footer/footer.component.ts:46-52 | the quick links target the header menu's section ids, in the same order |
| Footer.ScrollToSection | src/app/components/footer/footer.component.ts:65-77 | appends the section's scroll command, if any; no active-section or menu state exists to change |
| AboutSection.ScrollToContact | src/app/sections/about/about-section.component.ts:25-35 | always targets "contact" and appends its scroll command, if any |
| AboutSection.ContactTargets | src/app/sections/about/about-section.component.ts:28-33 | a contact section at 1000, 500 or 1500 is scrolled to 920, 420 or 1420 |
| PropertiesShowcase.PropertiesShowcaseSection.constructor | src/app/sections/properties-showcase/properties-showcase-section.component.ts:15-17 | the section starts with no listings |
| PropertiesShowcase.PropertiesShowcaseSection.NgOnInit | src/app/sections/properties-showcase/properties-showcase-section.component.ts:19-21 | loads the service's featured list, all of them featured and drawn from the full list in order |
| PropertiesShowcase.PropertiesShowcaseSection.OnContactProperty | src/app/sections/properties-showcase/properties-showcase-section.component.ts:23-34 | ignores the listing id, appends the contact section's scroll command if it exists, and leaves the listings unchanged |

## Left out

- Angular wiring is not modelled: component decorators, templates, Material modules, `@HostListener`, `@Input` and `@Output` plumbing, and the application root. The window scroll listener is the method `OnWindowScroll`, and the caller invokes it.
- The real DOM is abstracted by `Dom.Page`. `window.scrollTo` only records a command. The smooth animation is platform behaviour, and the model never changes `scrollY` as a result of a command.
- The `$` methods of the property service are left out. They only wrap the same results in an observable.
- Static content is left out: the listing data, the environment settings, the services section, and the headline, stats, social and contact-info texts. The queries work on any stored list instead of the five hard-coded listings.
- I/O and the clock are left out: the text of the thank-you alert (only whether it is raised is modelled), `callToAction`'s navigation to a phone link, and the footer's current year.
- The email format check of Angular's email validator is library code, so it is the parameter `isEmail`.
- Other Angular form details are left out: form status beyond the validators' errors, touched and dirty flags, and disabled controls.
- ContactSection.ContactSectionComponent.constructor also stands for `ngOnInit`. Angular always runs `ngOnInit` before any user event, so a form that has not been built yet is not modelled.
- ContactSection.FieldLabel: JavaScript objects also resolve inherited keys such as "toString" to functions. The model returns such keys unchanged, as for any other unknown key.
- The minimum-length rules count Dafny characters (Unicode scalar values). JavaScript counts UTF-16 code units, so a character outside the Basic Multilingual Plane counts once here and twice there.
- Numbers are whole numbers: pixel offsets and heights, carousel indexes, ratings and listing fields. Fractional values are not modelled; in JavaScript, a fractional carousel index would also give no image, and a fractional rating would make `Array` throw.
- PropertyCard.PropertyCardComponent.constructor binds the listing at creation. The card's behaviour before any listing is bound, when the source's `property` is undefined, is not modelled.
