/** The fixed wording of the suggestions scripts/repo_analyzer.py makes, word for word;
    module Rules splices the role, file and path names in between. */
module Messages {
  // analyze_role_structure
  const DirsTitle: string := "Complete directory structure for '"
  /** The phrase the role-completeness draft of scripts/copilot_integration.py looks for. */
  const MissingDirsPhrase: string := "missing standard directories"
  const DirsLead: string := "' role is " + MissingDirsPhrase + ": "
  const DirsAdvice: string := ". Consider adding these directories to follow Ansible role conventions."
  const ReadmeTitle: string := "Add README.md for '"
  const ReadmeLead: string := "' role is missing a README.md file. "
  const ReadmeAdvice: string := "Adding documentation will help users understand the role's purpose and usage."
  const MetaTitle: string := "Add meta/main.yml for '"
  const MetaLead: string := "' role is missing meta/main.yml. "
  const MetaAdvice: string := "This file is important for role metadata and dependencies."

  // analyze_documentation
  const MainReadmeTitle: string := "Enhance main README.md with additional sections"
  const MainReadmeLead: string := "The main README.md could be improved by adding these sections: "
  const RoleReadmeTitle: string := "Enhance README.md for '"
  const RoleReadmeLead: string := "The README.md for '"
  const RoleReadmeMiddle: string := "' role could be improved by adding these sections: "

  // analyze_best_practices
  const IpTitle: string := "Replace hardcoded IPs in '"
  const IpLead: string := "Found hardcoded IP addresses in '"
  const PortTitle: string := "Replace hardcoded ports in '"
  const PortLead: string := "Found hardcoded ports in '"
  const VariablesAdvice: string := "Consider replacing them with variables for better maintainability."
  const TagsTitle: string := "Add tags to '"
  const TagsTitleEnd: string := "' role tasks"
  const TagsLead: string := "The tasks in '"
  const TagsMiddle: string := "' role don't use tags. "
  const TagsAdvice: string := "Adding tags would improve playbook flexibility and selective execution."

  // analyze_testing
  const TestsTitle: string := "Add tests for '"
  const TestsLead: string := "' role doesn't have dedicated tests. "
  const TestsAdvice: string := "Consider adding component and integration tests to ensure reliability."
  const MoleculeTitle: string := "Add Molecule tests for '"
  const MoleculeLead: string := "' role doesn't have Molecule tests. "
  const MoleculeAdvice: string := "Molecule provides a standardized way to test Ansible roles across different platforms."

  // analyze_security
  const SecretTitle: string := "Potential sensitive information in '"
  const SecretLead: string := "Found potential hardcoded sensitive information in '"
  const SecretAdvice: string := "Consider using Ansible Vault or environment variables."

  // analyze_dependencies
  const PinTitle: string := "Pin dependency versions in '"
  const PinLead: string := "' role has dependencies without version pinning. "
  const PinAdvice: string := "Consider specifying versions to ensure compatibility."
  const UrlTitle: string := "Check for newer versions in '"
  const UrlLead: string := "Found GitHub release URL in '"
  const UrlAdvice: string := "Check if newer versions are available."
}
